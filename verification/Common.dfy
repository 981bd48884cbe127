/** Vocabulary shared by every module: optional values and Python-style text trimming. */
module Common {

  datatype Option<+T> = None | Some(value: T)

  type Id = nat

  /** Instants are integer ticks; timezone handling is not part of this model. */
  type Time = int

  /** The characters that Python's `str.strip` removes. */
  predicate IsSpace(c: char) {
    var n := c as int;
    || 0x09 <= n <= 0x0D
    || 0x1C <= n <= 0x20
    || n in {0x85, 0xA0, 0x1680, 0x2028, 0x2029, 0x202F, 0x205F, 0x3000}
    || 0x2000 <= n <= 0x200A
  }

  function StripLeft(s: string): string {
    if s != "" && IsSpace(s[0]) then StripLeft(s[1..]) else s
  }

  function StripRight(s: string): string {
    if s != "" && IsSpace(s[|s| - 1]) then StripRight(s[..|s| - 1]) else s
  }

  function Strip(s: string): string {
    StripRight(StripLeft(s))
  }

  lemma StripLeftTrims(s: string)
    ensures StripLeft(s) != "" ==> !IsSpace(StripLeft(s)[0])
    ensures |StripLeft(s)| <= |s|
  {
  }

  lemma {:induction false} StripRightTrims(s: string)
    ensures StripRight(s) != "" ==> !IsSpace(StripRight(s)[|StripRight(s)| - 1]) && StripRight(s)[0] == s[0]
    ensures |StripRight(s)| <= |s|
  {
    if s != "" && IsSpace(s[|s| - 1]) {
      StripRightTrims(s[..|s| - 1]);
    }
  }

  /** Trimming again changes nothing. */
  lemma StripIsIdempotent(s: string)
    ensures Strip(Strip(s)) == Strip(s)
  {
    StripLeftTrims(s);
    StripRightTrims(StripLeft(s));
  }

  /** Lower case as far as it matters for matching ASCII names: besides A-Z only the Kelvin
      sign has a lower-case form that is a single ASCII letter. */
  function LowerChar(c: char): char {
    if 'A' <= c <= 'Z' then ((c as int) + 32) as char
    else if c as int == 0x212A then 'k'
    else c
  }

  function Lower(s: string): string {
    if s == "" then "" else [LowerChar(s[0])] + Lower(s[1..])
  }

  predicate IsTokenStart(c: char) {
    'A' <= c <= 'Z' || 'a' <= c <= 'z' || '0' <= c <= '9'
  }

  predicate IsTokenPart(c: char) {
    IsTokenStart(c) || c == '.' || c == '_' || c == ':' || c == '-'
  }

  /** A client-provided retry key or event identifier, trimmed; absent when it is unsafe. */
  function NormalizeToken(raw: string): Option<string> {
    var token := Strip(raw);
    if 1 <= |token| <= 200 && IsTokenStart(token[0]) && forall i :: 1 <= i < |token| ==> IsTokenPart(token[i])
    then Some(token) else None
  }

  lemma {:induction false} StripLeftCuts(s: string) returns (i: nat)
    ensures i <= |s| && StripLeft(s) == s[i..] && forall k :: 0 <= k < i ==> IsSpace(s[k])
  {
    i := 0;
    if s != "" && IsSpace(s[0]) {
      var j := StripLeftCuts(s[1..]);
      i := j + 1;
      assert s[1..][j..] == s[i..];
      forall k | 0 <= k < i ensures IsSpace(s[k]) {
        if k > 0 {
          assert s[k] == s[1..][k - 1];
        }
      }
    }
  }

  lemma {:induction false} StripRightCuts(s: string) returns (j: nat)
    ensures j <= |s| && StripRight(s) == s[..j] && forall k :: j <= k < |s| ==> IsSpace(s[k])
    ensures j > 0 ==> !IsSpace(s[j - 1])
  {
    j := |s|;
    if s != "" && IsSpace(s[|s| - 1]) {
      j := StripRightCuts(s[..|s| - 1]);
    }
  }

  /** Trimming cuts off exactly the white space at both ends. */
  lemma StripCuts(s: string) returns (i: nat, j: nat)
    ensures i <= j <= |s| && Strip(s) == s[i..j]
    ensures forall k :: 0 <= k < i || j <= k < |s| ==> IsSpace(s[k])
    ensures i < j ==> !IsSpace(s[i]) && !IsSpace(s[j - 1])
  {
    i := StripLeftCuts(s);
    var n := StripRightCuts(s[i..]);
    j := i + n;
    StripLeftTrims(s);
    assert s[i..][..n] == s[i..j];
    forall k | 0 <= k < i || j <= k < |s| ensures IsSpace(s[k]) {
      if j <= k {
        assert s[k] == s[i..][k - i];
      }
    }
    if i < j {
      assert s[i] == StripLeft(s)[0] && s[j - 1] == s[i..][n - 1];
    }
  }

  lemma {:induction false} LowerPointwise(s: string)
    ensures |Lower(s)| == |s|
    ensures forall k :: 0 <= k < |s| && 'A' <= s[k] <= 'Z' ==> Lower(s)[k] as int == s[k] as int + 32
    ensures forall k :: 0 <= k < |s| && s[k] as int < 128 && !('A' <= s[k] <= 'Z') ==> Lower(s)[k] == s[k]
  {
    if s != "" {
      LowerPointwise(s[1..]);
    }
  }

  /** A token is kept exactly when, trimmed, it has 1 to 200 characters, starts with an ASCII
      letter or digit, and consists of those and `.`, `_`, `:`, `-`. */
  lemma TokenIff(raw: string, token: string)
    ensures NormalizeToken(raw) == Some(token) <==>
      && token == Strip(raw) && 1 <= |token| <= 200
      && token[0] !in {'.', '_', ':', '-'}
      && forall k :: 0 <= k < |token| ==>
           'A' <= token[k] <= 'Z' || 'a' <= token[k] <= 'z' || '0' <= token[k] <= '9' || token[k] in {'.', '_', ':', '-'}
  {
    hide Strip;
  }
}
