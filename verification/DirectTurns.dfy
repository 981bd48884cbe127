/** The receipt protocol of direct conversation turns: reserve, run, then complete or discard.

    Any number of clients interleave their steps over one table whose rows are unique per
    workspace, lead and retry key. Each step is one database transaction or one outcome of the
    turn, which may return any result or raise at any point. */
module DirectTurns {
  import opened Common

  datatype Key = Key(workspace: Id, lead: Id, token: string)

  /** The part of a turn's result that a receipt stores. */
  datatype TurnResult = TurnResult(
    stage: string, reply: string, approval: Option<Id>, handoff: bool, handoffReason: Option<string>)

  datatype ReceiptState = InProgress | Completed(result: TurnResult)

  /** `owner` identifies the row: it is the call that inserted it. */
  datatype Receipt = Receipt(owner: Id, fingerprint: string, state: ReceiptState)

  datatype Answer =
    | Replied(result: TurnResult, duplicate: bool)
    | KeyUsedDifferently
    | KeyInProgress
    | ReservationRaced
    | TurnFailed
    | CompletionFailed

  datatype Phase =
    | Reserving
    | Conflicted
    | Running(saved: bool)
    | Returned(result: TurnResult)
    | Unwinding(saved: bool)
    | Answered(answer: Answer, saved: bool)
    | Crashed(saved: bool)

  datatype Client = Client(key: Key, fingerprint: string, phase: Phase)

  /** `messages` holds the customer messages that turns have persisted, with their client. */
  datatype State = State(receipts: map<Key, Receipt>, clients: map<Id, Client>, messages: seq<(Key, Id)>)

  const EMPTY := State(map[], map[], [])

  datatype Move =
    | Arrive(workspace: Id, lead: Id, raw: string, fingerprint: string)
    | Reserve
    | ReadExisting
    | SaveMessage
    | Return(result: TurnResult)
    | Raise
    | Complete(commits: bool)
    | Discard(commits: bool)
    | Crash

  function ReplayOrRaise(receipt: Receipt, fingerprint: string): Answer {
    if receipt.fingerprint != fingerprint then KeyUsedDifferently
    else if receipt.state.InProgress? then KeyInProgress
    else Replied(receipt.state.result, true)
  }

  function Saved(phase: Phase): bool {
    match phase
    case Reserving => false
    case Conflicted => false
    case Running(saved) => saved
    case Returned(_) => true
    case Unwinding(saved) => saved
    case Answered(_, saved) => saved
    case Crashed(saved) => saved
  }

  function Enter(s: State, id: Id, phase: Phase): State
    requires id in s.clients
  {
    s.(clients := s.clients[id := s.clients[id].(phase := phase)])
  }

  /** One step of one client; a move that the client is not ready for changes nothing. */
  function Step(s: State, id: Id, move: Move): State {
    if move.Arrive? then
      var token := NormalizeToken(move.raw);
      if id in s.clients || token.None? then s
      else s.(clients := s.clients[id := Client(Key(move.workspace, move.lead, token.value), move.fingerprint, Reserving)])
    else if id !in s.clients then s
    else
      var c := s.clients[id];
      match (move, c.phase)
      case (Reserve, Reserving) =>
        if c.key in s.receipts then Enter(s, id, Conflicted)
        else Enter(s, id, Running(false)).(receipts := s.receipts[c.key := Receipt(id, c.fingerprint, InProgress)])
      case (ReadExisting, Conflicted) =>
        if c.key !in s.receipts then Enter(s, id, Answered(ReservationRaced, false))
        else Enter(s, id, Answered(ReplayOrRaise(s.receipts[c.key], c.fingerprint), false))
      case (SaveMessage, Running(saved)) =>
        if saved then s else Enter(s, id, Running(true)).(messages := s.messages + [(c.key, id)])
      case (Return(result), Running(saved)) =>
        if saved then Enter(s, id, Returned(result)) else s
      case (Raise, Running(saved)) => Enter(s, id, Unwinding(saved))
      case (Complete(commits), Returned(result)) =>
        if commits && c.key in s.receipts && s.receipts[c.key].owner == id then
          Enter(s, id, Answered(Replied(result, false), true))
            .(receipts := s.receipts[c.key := s.receipts[c.key].(state := Completed(result))])
        else Enter(s, id, Answered(CompletionFailed, true))
      case (Discard(commits), Unwinding(saved)) =>
        if commits && c.key in s.receipts && s.receipts[c.key].owner == id then
          Enter(s, id, Answered(TurnFailed, saved)).(receipts := s.receipts - {c.key})
        else Enter(s, id, Answered(TurnFailed, saved))
      case (Crash, Answered(_, _)) => s
      case (Crash, _) => Enter(s, id, Crashed(Saved(c.phase)))
      case _ => s
  }

  function RunFrom(s: State, moves: seq<(Id, Move)>): State {
    if moves == [] then s
    else
      var last := moves[|moves| - 1];
      Step(RunFrom(s, moves[..|moves| - 1]), last.0, last.1)
  }

  function Run(moves: seq<(Id, Move)>): State {
    RunFrom(EMPTY, moves)
  }

  // ---- the invariant -----------------------------------------------------------------------

  /** The client holds the reservation of its key and its turn has not settled. */
  predicate InFlight(c: Client) {
    c.phase.Running? || c.phase.Returned? || c.phase.Unwinding?
  }

  predicate Succeeded(c: Client) {
    c.phase.Answered? && c.phase.answer.Replied?
  }

  ghost predicate ClientSound(s: State, id: Id)
    requires id in s.clients
  {
    var c := s.clients[id];
    && (InFlight(c) ==> c.key in s.receipts && s.receipts[c.key] == Receipt(id, c.fingerprint, InProgress))
    && (Succeeded(c) ==>
          && c.key in s.receipts
          && s.receipts[c.key].fingerprint == c.fingerprint
          && s.receipts[c.key].state == Completed(c.phase.answer.result)
          && (c.phase.answer.duplicate <==> s.receipts[c.key].owner != id)
          && (c.phase.saved <==> !c.phase.answer.duplicate))
    && ((c.key, id) in s.messages <==> Saved(c.phase))
  }

  ghost predicate ReceiptSound(s: State, key: Key)
    requires key in s.receipts
  {
    var r := s.receipts[key];
    && r.owner in s.clients && s.clients[r.owner].key == key
    && (r.state.Completed? ==> s.clients[r.owner].phase == Answered(Replied(r.state.result, false), true))
    && !s.clients[r.owner].phase.Reserving? && !s.clients[r.owner].phase.Conflicted?
  }

  ghost predicate MessagesSound(s: State) {
    && (forall i :: 0 <= i < |s.messages| ==>
          s.messages[i].1 in s.clients && s.clients[s.messages[i].1].key == s.messages[i].0)
    && (forall i, j :: 0 <= i < j < |s.messages| ==> s.messages[i].1 != s.messages[j].1)
  }

  ghost predicate Valid(s: State) {
    && (forall id :: id in s.clients ==> ClientSound(s, id))
    && (forall key :: key in s.receipts ==> ReceiptSound(s, key))
    && MessagesSound(s)
  }

  /** A step that moves one client on and leaves receipts and messages alone. */
  lemma EnterKeepsValid(s: State, id: Id, phase: Phase)
    requires Valid(s) && id in s.clients
    requires Saved(phase) == Saved(s.clients[id].phase)
    requires !Succeeded(s.clients[id])
    requires ClientSound(Enter(s, id, phase), id)
    requires phase.Reserving? || phase.Conflicted? ==> s.clients[id].phase.Reserving?
    ensures Valid(Enter(s, id, phase))
  {
    var t := Enter(s, id, phase);
    forall other | other in t.clients ensures ClientSound(t, other) {
      assert ClientSound(s, other);
    }
    forall key | key in t.receipts ensures ReceiptSound(t, key) {
      assert ReceiptSound(s, key);
    }
  }

  lemma ReserveKeepsValid(s: State, id: Id)
    requires Valid(s) && id in s.clients && s.clients[id].phase == Reserving && s.clients[id].key !in s.receipts
    ensures Valid(Step(s, id, Reserve))
  {
    var t := Step(s, id, Reserve);
    forall other | other in t.clients ensures ClientSound(t, other) {
      assert ClientSound(s, other);
    }
    forall key | key in t.receipts ensures ReceiptSound(t, key) {
      if key in s.receipts {
        assert ReceiptSound(s, key);
      }
    }
  }

  lemma SaveKeepsValid(s: State, id: Id)
    requires Valid(s) && id in s.clients && s.clients[id].phase == Running(false)
    ensures Valid(Step(s, id, SaveMessage))
  {
    var t := Step(s, id, SaveMessage);
    var key := s.clients[id].key;
    assert ClientSound(s, id);
    forall i | 0 <= i < |s.messages| ensures s.messages[i].1 != id {
      var m := s.messages[i];
      assert m.1 == id ==> m == (key, id);
    }
    forall other | other in t.clients ensures ClientSound(t, other) {
      assert ClientSound(s, other);
    }
    forall k | k in t.receipts ensures ReceiptSound(t, k) {
      assert ReceiptSound(s, k);
    }
  }

  lemma CompleteKeepsValid(s: State, id: Id)
    requires Valid(s) && id in s.clients && s.clients[id].phase.Returned?
    ensures Valid(Step(s, id, Complete(true)))
  {
    var t := Step(s, id, Complete(true));
    assert ClientSound(s, id);
    forall other | other in t.clients ensures ClientSound(t, other) {
      assert ClientSound(s, other);
    }
    forall k | k in t.receipts ensures ReceiptSound(t, k) {
      assert ReceiptSound(s, k);
    }
  }

  lemma DiscardKeepsValid(s: State, id: Id)
    requires Valid(s) && id in s.clients && s.clients[id].phase.Unwinding?
    ensures Valid(Step(s, id, Discard(true)))
  {
    var t := Step(s, id, Discard(true));
    assert ClientSound(s, id);
    forall other | other in t.clients ensures ClientSound(t, other) {
      assert ClientSound(s, other);
    }
    forall k | k in t.receipts ensures ReceiptSound(t, k) {
      assert ReceiptSound(s, k);
    }
  }

  lemma ArriveKeepsValid(s: State, id: Id, move: Move)
    requires Valid(s) && move.Arrive?
    ensures Valid(Step(s, id, move))
  {
    hide NormalizeToken;
    var t := Step(s, id, move);
    if t != s {
      assert forall i :: 0 <= i < |s.messages| ==> s.messages[i].1 != id;
      forall other | other in t.clients ensures ClientSound(t, other) {
        if other != id {
          assert ClientSound(s, other);
        }
      }
      forall k | k in t.receipts ensures ReceiptSound(t, k) {
        assert ReceiptSound(s, k);
      }
    }
  }

  lemma ReadKeepsValid(s: State, id: Id)
    requires Valid(s) && id in s.clients && s.clients[id].phase == Conflicted
    ensures Valid(Step(s, id, ReadExisting))
  {
    var c := s.clients[id];
    assert ClientSound(s, id);
    if c.key in s.receipts {
      assert ReceiptSound(s, c.key);
      EnterKeepsValid(s, id, Answered(ReplayOrRaise(s.receipts[c.key], c.fingerprint), false));
    } else {
      EnterKeepsValid(s, id, Answered(ReservationRaced, false));
    }
  }

  lemma StepKeepsValid(s: State, id: Id, move: Move)
    requires Valid(s)
    ensures Valid(Step(s, id, move))
  {
    if move.Arrive? {
      ArriveKeepsValid(s, id, move);
    } else if id in s.clients {
      var c := s.clients[id];
      assert ClientSound(s, id);
      match (move, c.phase) {
        case (Reserve, Reserving) =>
          if c.key in s.receipts {
            EnterKeepsValid(s, id, Conflicted);
          } else {
            ReserveKeepsValid(s, id);
          }
        case (ReadExisting, Conflicted) => ReadKeepsValid(s, id);
        case (SaveMessage, Running(saved)) =>
          if !saved {
            SaveKeepsValid(s, id);
          }
        case (Return(result), Running(saved)) =>
          if saved {
            EnterKeepsValid(s, id, Returned(result));
          }
        case (Raise, Running(saved)) => EnterKeepsValid(s, id, Unwinding(saved));
        case (Complete(commits), Returned(result)) =>
          CompleteKeepsValid(s, id);
          EnterKeepsValid(s, id, Answered(CompletionFailed, true));
        case (Discard(commits), Unwinding(saved)) =>
          DiscardKeepsValid(s, id);
          EnterKeepsValid(s, id, Answered(TurnFailed, saved));
        case (Crash, Answered(_, _)) =>
        case (Crash, _) => EnterKeepsValid(s, id, Crashed(Saved(c.phase)));
        case _ =>
      }
    }
  }

  lemma {:induction false} RunKeepsValid(s: State, moves: seq<(Id, Move)>)
    requires Valid(s)
    ensures Valid(RunFrom(s, moves))
  {
    hide Step, Valid;
    if moves != [] {
      var last := moves[|moves| - 1];
      RunKeepsValid(s, moves[..|moves| - 1]);
      StepKeepsValid(RunFrom(s, moves[..|moves| - 1]), last.0, last.1);
    }
  }

  lemma ReachableIsValid(moves: seq<(Id, Move)>)
    ensures Valid(Run(moves))
  {
    RunKeepsValid(EMPTY, moves);
  }

  // ---- at most once ------------------------------------------------------------------------

  /** Two different calls under one key: not both in flight, not both the first to succeed. */
  lemma AtMostOnePerKey(moves: seq<(Id, Move)>, i: Id, j: Id)
    requires var s := Run(moves); i in s.clients && j in s.clients && i != j && s.clients[i].key == s.clients[j].key
    ensures var a, b := Run(moves).clients[i], Run(moves).clients[j];
            && !(InFlight(a) && InFlight(b))
            && !(Succeeded(a) && InFlight(b))
            && !(Succeeded(a) && !a.phase.answer.duplicate && Succeeded(b) && !b.phase.answer.duplicate)
  {
    ReachableIsValid(moves);
    hide Run;
    assert ClientSound(Run(moves), i) && ClientSound(Run(moves), j);
  }

  /** Every success under one key, first or replayed, carries the same result for the same request. */
  lemma SuccessesAgree(moves: seq<(Id, Move)>, i: Id, j: Id)
    requires var s := Run(moves); i in s.clients && j in s.clients && s.clients[i].key == s.clients[j].key
    requires Succeeded(Run(moves).clients[i]) && Succeeded(Run(moves).clients[j])
    ensures var a, b := Run(moves).clients[i], Run(moves).clients[j];
            a.phase.answer.result == b.phase.answer.result && a.fingerprint == b.fingerprint
  {
    ReachableIsValid(moves);
    hide Run;
    assert ClientSound(Run(moves), i) && ClientSound(Run(moves), j);
  }

  /** A receipt changes only by being completed by its owner, and disappears only when its
      owner's turn has raised. */
  lemma OnlyFailedTurnsRelease(s: State, id: Id, move: Move, key: Key)
    requires Valid(s) && key in s.receipts
    ensures var t := Step(s, id, move);
            && (key !in t.receipts ==> move.Discard? && s.receipts[key].owner == id && s.clients[id].phase.Unwinding?)
            && (key in t.receipts && t.receipts[key] != s.receipts[key] ==>
                  && move.Complete? && s.receipts[key].owner == id && s.clients[id].phase.Returned?
                  && t.receipts[key] == s.receipts[key].(state := Completed(s.clients[id].phase.result)))
  {
    hide NormalizeToken;
    assert ReceiptSound(s, key);
    if id in s.clients {
      assert ClientSound(s, id);
    }
  }

  /** A receipt whose owner is no longer running its turn stays as it is through every further
      run. That is so for completed receipts, and also for a reservation whose owner crashed or
      could not write its outcome: its key answers "in progress" for good. */
  lemma {:induction false} SettledReceiptIsForever(s: State, moves: seq<(Id, Move)>, key: Key)
    requires Valid(s) && key in s.receipts
    requires s.receipts[key].owner in s.clients && !InFlight(s.clients[s.receipts[key].owner])
    ensures var t := RunFrom(s, moves);
            && key in t.receipts && t.receipts[key] == s.receipts[key]
            && s.receipts[key].owner in t.clients && !InFlight(t.clients[s.receipts[key].owner])
  {
    hide Step, NormalizeToken;
    if moves != [] {
      var last := moves[|moves| - 1];
      var before := RunFrom(s, moves[..|moves| - 1]);
      SettledReceiptIsForever(s, moves[..|moves| - 1], key);
      RunKeepsValid(s, moves[..|moves| - 1]);
      OnlyFailedTurnsRelease(before, last.0, last.1, key);
      OwnerStaysSettled(before, last.0, last.1, key);
    }
  }

  lemma OwnerStaysSettled(s: State, id: Id, move: Move, key: Key)
    requires Valid(s) && key in s.receipts
    requires s.receipts[key].owner in s.clients && !InFlight(s.clients[s.receipts[key].owner])
    ensures s.receipts[key].owner in Step(s, id, move).clients
    ensures !InFlight(Step(s, id, move).clients[s.receipts[key].owner])
  {
    hide NormalizeToken;
    assert ReceiptSound(s, key);
  }

  /** Once completed, a key answers every later retry with the same receipt. */
  lemma CompletedIsForever(s: State, moves: seq<(Id, Move)>, key: Key)
    requires Valid(s) && key in s.receipts && s.receipts[key].state.Completed?
    ensures key in RunFrom(s, moves).receipts && RunFrom(s, moves).receipts[key] == s.receipts[key]
  {
    hide RunFrom;
    assert ReceiptSound(s, key);
    SettledReceiptIsForever(s, moves, key);
  }

  // ---- when a key is blocked for good ----------------------------------------------------------

  /** The key is free again, or it replays a completed turn. */
  predicate Unblocked(s: State, key: Key) {
    key !in s.receipts || s.receipts[key].state.Completed?
  }

  ghost predicate CanUnblock(s: State, key: Key) {
    exists more :: Unblocked(RunFrom(s, more), key)
  }

  lemma OwnerCanSettle(s: State, key: Key) returns (more: seq<(Id, Move)>)
    requires Valid(s) && key in s.receipts && s.receipts[key].owner in s.clients
    requires InFlight(s.clients[s.receipts[key].owner])
    ensures Unblocked(RunFrom(s, more), key)
  {
    var id := s.receipts[key].owner;
    assert ReceiptSound(s, key) && ClientSound(s, id);
    hide NormalizeToken, Valid;
    var phase := s.clients[id].phase;
    if phase.Returned? {
      more := [(id, Complete(true))];
      assert RunFrom(s, more) == Step(s, id, Complete(true)) by { assert more[..0] == []; }
    } else if phase.Unwinding? {
      more := [(id, Discard(true))];
      assert RunFrom(s, more) == Step(s, id, Discard(true)) by { assert more[..0] == []; }
    } else {
      more := [(id, Raise), (id, Discard(true))];
      assert more[..1] == [(id, Raise)] && more[..1][..0] == [];
      assert RunFrom(s, more[..1]) == Step(s, id, Raise);
      assert RunFrom(s, more) == Step(Step(s, id, Raise), id, Discard(true));
    }
  }

  /** A key in progress can still be released or completed exactly while the client that reserved
      it is running its turn; otherwise it answers "in progress" for good. */
  lemma BlockedForGoodIff(moves: seq<(Id, Move)>, key: Key)
    requires key in Run(moves).receipts && Run(moves).receipts[key].state.InProgress?
    ensures
      var s := Run(moves);
      && s.receipts[key].owner in s.clients
      && (CanUnblock(s, key) <==> InFlight(s.clients[s.receipts[key].owner]))
  {
    ReachableIsValid(moves);
    var s := Run(moves);
    assert ReceiptSound(s, key);
    hide Run, RunFrom, Valid;
    if InFlight(s.clients[s.receipts[key].owner]) {
      var more := OwnerCanSettle(s, key);
    } else if CanUnblock(s, key) {
      var more :| Unblocked(RunFrom(s, more), key);
      SettledReceiptIsForever(s, more, key);
    }
  }

  // ---- how a turn that stored its message ends -------------------------------------------------

  /** The client stopped without settling its reservation. */
  predicate Abandoned(c: Client) {
    c.phase == Crashed(true) || (c.phase.Answered? && c.phase.answer.CompletionFailed?)
  }

  /** An abandoned reservation is still there, and besides abandoning it a turn that stored its
      message ends only by success or by having raised. */
  ghost predicate EndsSound(s: State, id: Id)
    requires id in s.clients
  {
    var c := s.clients[id];
    && (Abandoned(c) ==> c.key in s.receipts && s.receipts[c.key] == Receipt(id, c.fingerprint, InProgress))
    && (c.phase.Answered? && c.phase.saved ==> Succeeded(c) || c.phase.answer.TurnFailed? || Abandoned(c))
  }

  lemma MoverEndsSound(s: State, id: Id, move: Move)
    requires Valid(s) && id in s.clients && EndsSound(s, id)
    ensures id in Step(s, id, move).clients && EndsSound(Step(s, id, move), id)
  {
    hide NormalizeToken, MessagesSound;
    assert ClientSound(s, id);
  }

  lemma OthersEndSound(s: State, id: Id, move: Move, other: Id)
    requires Valid(s) && other in s.clients && other != id && EndsSound(s, other)
    ensures other in Step(s, id, move).clients && EndsSound(Step(s, id, move), other)
  {
    var key := s.clients[other].key;
    ClientStays(s, id, move, other);
    if Abandoned(s.clients[other]) {
      OnlyFailedTurnsRelease(s, id, move, key);
    }
    hide Step, Valid;
  }

  lemma NewcomerEndsSound(s: State, id: Id, move: Move)
    requires id !in s.clients && id in Step(s, id, move).clients
    ensures EndsSound(Step(s, id, move), id)
  {
    hide NormalizeToken;
  }

  lemma {:induction false} ReachableEndsSound(moves: seq<(Id, Move)>, id: Id)
    requires id in Run(moves).clients
    ensures EndsSound(Run(moves), id)
  {
    hide Step, Valid, EndsSound;
    var n := |moves| - 1;
    var s := Run(moves[..n]);
    ReachableIsValid(moves[..n]);
    if id in s.clients {
      ReachableEndsSound(moves[..n], id);
      if moves[n].0 == id {
        MoverEndsSound(s, id, moves[n].1);
      } else {
        OthersEndSound(s, moves[n].0, moves[n].1, id);
      }
    } else {
      ClientsArrive(s, moves[n].0, moves[n].1, id);
      NewcomerEndsSound(s, id, moves[n].1);
    }
  }

  lemma ClientStays(s: State, mover: Id, move: Move, id: Id)
    requires id in s.clients
    ensures id in Step(s, mover, move).clients
    ensures id != mover ==> Step(s, mover, move).clients[id] == s.clients[id]
  {
    hide NormalizeToken;
  }

  lemma ClientsArrive(s: State, mover: Id, move: Move, id: Id)
    requires id !in s.clients && id in Step(s, mover, move).clients
    ensures id == mover
  {
    hide NormalizeToken;
  }

  // ---- what at-most-once does not cover ------------------------------------------------------

  /** The calls under one key that did not succeed but had already stored the message. */
  function SavedWithoutSuccess(s: State, key: Key): set<Id> {
    set id | id in s.clients && s.clients[id].key == key && Saved(s.clients[id].phase) && !Succeeded(s.clients[id])
  }

  /** The stored customer messages of a key with a completed turn: one of the turn itself and one
      of every other turn that raised after storing its own; nobody else stored any. */
  lemma StoredMessagesOfCompletedKey(moves: seq<(Id, Move)>, key: Key)
    requires key in Run(moves).receipts && Run(moves).receipts[key].state.Completed?
    ensures var s := Run(moves);
            && (set m | m in s.messages && m.0 == key :: m.1) == SavedWithoutSuccess(s, key) + {s.receipts[key].owner}
            && s.receipts[key].owner !in SavedWithoutSuccess(s, key)
            && (forall id :: id in SavedWithoutSuccess(s, key) ==> s.clients[id].phase == Answered(TurnFailed, true))
            && (forall i, j :: 0 <= i < j < |s.messages| ==> s.messages[i] != s.messages[j])
  {
    ReachableIsValid(moves);
    var s := Run(moves);
    hide Run;
    var owner := s.receipts[key].owner;
    assert ReceiptSound(s, key) && ClientSound(s, owner);
    forall m | m in s.messages && m.0 == key ensures m.1 in SavedWithoutSuccess(s, key) + {owner} {
      var i :| 0 <= i < |s.messages| && s.messages[i] == m;
      assert ClientSound(s, m.1);
    }
    forall id | id in SavedWithoutSuccess(s, key) + {owner} ensures (key, id) in s.messages {
      assert ClientSound(s, id);
    }
    forall id | id in SavedWithoutSuccess(s, key) ensures s.clients[id].phase == Answered(TurnFailed, true) {
      assert ClientSound(s, id);
      ReachableEndsSound(moves, id);
      assert EndsSound(s, id);
    }
    assert forall id :: (key, id) in s.messages ==> id in set m | m in s.messages && m.0 == key :: m.1;
  }

  /** The `k`-th move is a turn of this key raising although it had stored its message. */
  ghost predicate RaisesLate(moves: seq<(Id, Move)>, k: nat, key: Key)
    requires k < |moves|
  {
    var s, id := Run(moves[..k]), moves[k].0;
    moves[k].1 == Raise && id in s.clients && s.clients[id].key == key && s.clients[id].phase == Running(true)
  }

  predicate HasRaisedLate(phase: Phase) {
    phase == Unwinding(true) || phase == Answered(TurnFailed, true) || phase == Crashed(true)
  }

  /** One step of any client leaves keys alone, and a late raise is what starts late unwinding. */
  lemma StepUnwinds(s: State, mover: Id, move: Move, id: Id)
    requires id in Step(s, mover, move).clients
    ensures
      var c := Step(s, mover, move).clients[id];
      && (id in s.clients ==> c.key == s.clients[id].key)
      && (id in s.clients && HasRaisedLate(s.clients[id].phase) ==> HasRaisedLate(c.phase))
      && (c.phase == Unwinding(true) || c.phase == Answered(TurnFailed, true) ==>
            && id in s.clients
            && (|| s.clients[id].phase == Unwinding(true) || s.clients[id].phase == Answered(TurnFailed, true)
                || (mover == id && move == Raise && s.clients[id].phase == Running(true))))
  {
    hide NormalizeToken;
  }

  lemma {:induction false} UnwoundHasRaised(moves: seq<(Id, Move)>, id: Id) returns (k: nat)
    requires id in Run(moves).clients
    requires Run(moves).clients[id].phase == Unwinding(true) || Run(moves).clients[id].phase == Answered(TurnFailed, true)
    ensures k < |moves| && moves[k].0 == id && RaisesLate(moves, k, Run(moves).clients[id].key)
  {
    hide Step;
    var n := |moves| - 1;
    var before := Run(moves[..n]);
    StepUnwinds(before, moves[n].0, moves[n].1, id);
    if before.clients[id].phase == Running(true) {
      k := n;
    } else {
      k := UnwoundHasRaised(moves[..n], id);
      assert moves[..n][..k] == moves[..k];
    }
  }

  lemma {:induction false} RaisedStaysUnwound(moves: seq<(Id, Move)>, k: nat, key: Key)
    requires k < |moves| && RaisesLate(moves, k, key)
    ensures
      var s, id := Run(moves), moves[k].0;
      id in s.clients && s.clients[id].key == key && HasRaisedLate(s.clients[id].phase)
  {
    var n := |moves| - 1;
    if k < n {
      assert moves[..n][..k] == moves[..k];
      RaisedStaysUnwound(moves[..n], k, key);
      ClientStays(Run(moves[..n]), moves[n].0, moves[n].1, moves[k].0);
      StepUnwinds(Run(moves[..n]), moves[n].0, moves[n].1, moves[k].0);
      hide Step;
    }
  }

  /** Of a completed key the message is stored once, by the turn that completed it, exactly when
      no turn of the key ever raised after storing. */
  lemma MessageStoredOnceIff(moves: seq<(Id, Move)>, key: Key)
    requires key in Run(moves).receipts && Run(moves).receipts[key].state.Completed?
    ensures
      (set m | m in Run(moves).messages && m.0 == key :: m.1) == {Run(moves).receipts[key].owner}
      <==> !exists k :: 0 <= k < |moves| && RaisesLate(moves, k, key)
  {
    var s := Run(moves);
    ReachableIsValid(moves);
    StoredMessagesOfCompletedKey(moves, key);
    hide Run, RaisesLate, Valid;
    var others := SavedWithoutSuccess(s, key);
    if k :| 0 <= k < |moves| && RaisesLate(moves, k, key) {
      RaisedStaysUnwound(moves, k, key);
      assert moves[k].0 in others;
    } else if others != {} {
      var id :| id in others;
      var k := UnwoundHasRaised(moves, id);
    }
  }

  lemma Snoc(moves: seq<(Id, Move)>, id: Id, move: Move)
    ensures Run(moves + [(id, move)]) == Step(Run(moves), id, move)
  {
    assert (moves + [(id, move)])[..|moves|] == moves;
  }

  /** One turn that arrives, reserves and stores its message. */
  lemma StoresMessage(moves: seq<(Id, Move)>, id: Id, raw: string) returns (more: seq<(Id, Move)>)
    requires NormalizeToken(raw).Some?
    requires id !in Run(moves).clients && Key(0, 0, NormalizeToken(raw).value) !in Run(moves).receipts
    ensures var s, t, key := Run(moves), Run(more), Key(0, 0, NormalizeToken(raw).value);
            && t.clients == s.clients[id := Client(key, "", Running(true))]
            && t.receipts == s.receipts[key := Receipt(id, "", InProgress)]
            && t.messages == s.messages + [(key, id)]
  {
    hide Run, NormalizeToken;
    Snoc(moves, id, Arrive(0, 0, raw, ""));
    var arrived := moves + [(id, Arrive(0, 0, raw, ""))];
    Snoc(arrived, id, Reserve);
    var reserved := arrived + [(id, Reserve)];
    Snoc(reserved, id, SaveMessage);
    more := reserved + [(id, SaveMessage)];
  }

  /** The turn raises after all, and its reservation is released. */
  lemma ReleasesKey(moves: seq<(Id, Move)>, id: Id) returns (more: seq<(Id, Move)>)
    requires id in Run(moves).clients && Run(moves).clients[id].phase == Running(true)
    requires var key := Run(moves).clients[id].key;
             key in Run(moves).receipts && Run(moves).receipts[key].owner == id
    ensures var s, t := Run(moves), Run(more);
            && t.clients.Keys == s.clients.Keys
            && t.receipts == s.receipts - {s.clients[id].key}
            && t.messages == s.messages
  {
    hide Run;
    Snoc(moves, id, Raise);
    more := moves + [(id, Raise)];
    Snoc(more, id, Discard(true));
    more := more + [(id, Discard(true))];
  }

  lemma CompletesTurn(moves: seq<(Id, Move)>, id: Id, result: TurnResult) returns (more: seq<(Id, Move)>)
    requires id in Run(moves).clients && Run(moves).clients[id].phase == Running(true)
    requires var key := Run(moves).clients[id].key;
             key in Run(moves).receipts && Run(moves).receipts[key].owner == id
    ensures var s, t := Run(moves), Run(more);
            var key := s.clients[id].key;
            && key in t.receipts && t.receipts[key].state == Completed(result)
            && t.messages == s.messages
  {
    hide Run;
    Snoc(moves, id, Return(result));
    more := moves + [(id, Return(result))];
    Snoc(more, id, Complete(true));
    more := more + [(id, Complete(true))];
  }

  lemma SafeToken()
    ensures NormalizeToken("k") == Some("k")
  {
  }

  /** A late failure does occur: the first turn stores the message and raises, its client's
      retry succeeds, and the message is there twice. */
  lemma RetryStoresMessageTwice(result: TurnResult)
    ensures exists moves, key ::
      && key in Run(moves).receipts && Run(moves).receipts[key].state == Completed(result)
      && Run(moves).messages == [(key, 1), (key, 2)]
  {
    SafeToken();
    assert Run([]) == EMPTY;
    hide Run, NormalizeToken;
    var first := StoresMessage([], 1, "k");
    var released := ReleasesKey(first, 1);
    var second := StoresMessage(released, 2, "k");
    var all := CompletesTurn(second, 2, result);
    assert Run(all).messages == [(Key(0, 0, "k"), 1), (Key(0, 0, "k"), 2)];
  }

  // ---- what a retry is answered ------------------------------------------------------------------

  lemma ReserveConflicts(s: State, id: Id)
    requires id in s.clients && s.clients[id].phase == Reserving
    ensures
      var t, c := Step(s, id, Reserve), s.clients[id];
      && id in t.clients && t.clients[id].key == c.key && t.clients[id].fingerprint == c.fingerprint
      && (c.key in s.receipts ==> t == Enter(s, id, Conflicted))
      && (c.key !in s.receipts ==> t.clients[id].phase == Running(false))
  {
    hide NormalizeToken, ReplayOrRaise;
  }

  /** Whatever the others do in between, a client stays where it is. */
  lemma {:induction false} Meanwhile(moves: seq<(Id, Move)>, between: seq<(Id, Move)>, id: Id)
    requires id in Run(moves).clients
    requires forall i :: 0 <= i < |between| ==> between[i].0 != id
    ensures id in Run(moves + between).clients && Run(moves + between).clients[id] == Run(moves).clients[id]
  {
    hide Step;
    if between == [] {
      assert moves + between == moves;
    } else {
      var front, last := between[..|between| - 1], between[|between| - 1];
      Meanwhile(moves, front, id);
      assert moves + between == (moves + front) + [(last.0, last.1)];
      Snoc(moves + front, last.0, last.1);
      ClientStays(Run(moves + front), last.0, last.1, id);
    }
  }

  /** The answer of a client in this state. */
  ghost predicate IsAnswered(s: State, id: Id, answer: Answer) {
    id in s.clients && s.clients[id].phase == Answered(answer, false)
  }

  /** How a conflicting client is answered from the receipts at the moment of its read. */
  ghost predicate AnswersFrom(t: State, u: State, id: Id)
    requires id in t.clients
  {
    var key, fingerprint := t.clients[id].key, t.clients[id].fingerprint;
    var held := key in t.receipts;
    var same := held && t.receipts[key].fingerprint == fingerprint;
    && u.receipts == t.receipts && u.messages == t.messages
    && (forall r :: IsAnswered(u, id, Replied(r, true)) <==> same && t.receipts[key].state == Completed(r))
    && (IsAnswered(u, id, KeyInProgress) <==> same && t.receipts[key].state.InProgress?)
    && (IsAnswered(u, id, KeyUsedDifferently) <==> held && !same)
    && (IsAnswered(u, id, ReservationRaced) <==> !held)
  }

  lemma ReadAnswers(t: State, id: Id)
    requires id in t.clients && t.clients[id].phase == Conflicted
    ensures AnswersFrom(t, Step(t, id, ReadExisting), id)
  {
    hide NormalizeToken;
  }

  /** Over every run: a client whose insert conflicted is answered, after any moves of the others,
      with the stored result exactly when the key by then holds a completed receipt of the same
      request; that its key is in progress exactly when that receipt is unfinished; that the key
      was used differently exactly when the receipt is another request's; and that the
      reservation was lost exactly when there is no receipt any more. It stores nothing. */
  lemma RetryIsAnswered(before: seq<(Id, Move)>, id: Id, between: seq<(Id, Move)>)
    requires id in Run(before).clients && Run(before).clients[id].phase == Reserving
    requires Run(before).clients[id].key in Run(before).receipts
    requires forall i :: 0 <= i < |between| ==> between[i].0 != id
    ensures
      var waiting := before + [(id, Reserve)] + between;
      && id in Run(waiting).clients
      && Run(waiting).clients[id].key == Run(before).clients[id].key
      && Run(waiting).clients[id].fingerprint == Run(before).clients[id].fingerprint
      && AnswersFrom(Run(waiting), Run(waiting + [(id, ReadExisting)]), id)
  {
    var reserved := before + [(id, Reserve)];
    Snoc(before, id, Reserve);
    ReserveConflicts(Run(before), id);
    Meanwhile(reserved, between, id);
    Snoc(reserved + between, id, ReadExisting);
    hide Run, Step, AnswersFrom;
    ReadAnswers(Run(reserved + between), id);
  }

  lemma {:induction false} RunFromConcat(moves: seq<(Id, Move)>, more: seq<(Id, Move)>)
    ensures RunFrom(Run(moves), more) == Run(moves + more)
  {
    hide Step;
    if more == [] {
      assert moves + more == moves;
    } else {
      assert (moves + more)[..|moves + more| - 1] == moves + more[..|more| - 1];
      RunFromConcat(moves, more[..|more| - 1]);
    }
  }

  lemma Arrives(s: State, id: Id, workspace: Id, lead: Id, raw: string, fingerprint: string)
    requires id !in s.clients && NormalizeToken(raw).Some?
    ensures Step(s, id, Arrive(workspace, lead, raw, fingerprint))
         == s.(clients := s.clients[id := Client(Key(workspace, lead, NormalizeToken(raw).value), fingerprint, Reserving)])
  {
  }

  /** Over every run: once a key is completed, every later client that asks with it is answered
      with the stored result if it repeats the request, and refused if it does not, whatever
      happens between its arrival, its insert and its read. */
  lemma CompletedKeyReplays(before: seq<(Id, Move)>, key: Key, id: Id, raw: string, fingerprint: string,
                            arriving: seq<(Id, Move)>, between: seq<(Id, Move)>)
    requires key in Run(before).receipts && Run(before).receipts[key].state.Completed?
    requires id !in Run(before).clients && NormalizeToken(raw) == Some(key.token)
    requires forall i :: 0 <= i < |arriving| ==> arriving[i].0 != id
    requires forall i :: 0 <= i < |between| ==> between[i].0 != id
    ensures
      var receipt := Run(before).receipts[key];
      var asked := before + [(id, Arrive(key.workspace, key.lead, raw, fingerprint))] + arriving;
      var u := Run(asked + [(id, Reserve)] + between + [(id, ReadExisting)]);
      && (fingerprint == receipt.fingerprint ==> IsAnswered(u, id, Replied(receipt.state.result, true)))
      && (fingerprint != receipt.fingerprint ==> IsAnswered(u, id, KeyUsedDifferently))
  {
    hide Run, Step, AnswersFrom, NormalizeToken;
    var move := Arrive(key.workspace, key.lead, raw, fingerprint);
    var arrived := before + [(id, move)];
    var asked := arrived + arriving;
    Snoc(before, id, move);
    Arrives(Run(before), id, key.workspace, key.lead, raw, fingerprint);
    Meanwhile(arrived, arriving, id);
    CompletedStays(before, [(id, move)] + arriving, key);
    assert before + ([(id, move)] + arriving) == asked;
    var waiting := asked + [(id, Reserve)] + between;
    CompletedStays(asked, [(id, Reserve)] + between, key);
    assert asked + ([(id, Reserve)] + between) == waiting;
    RetryIsAnswered(asked, id, between);
    ReplaysFrom(Run(waiting), Run(waiting + [(id, ReadExisting)]), id);
  }

  lemma ReplaysFrom(t: State, u: State, id: Id)
    requires id in t.clients && AnswersFrom(t, u, id)
    requires t.clients[id].key in t.receipts && t.receipts[t.clients[id].key].state.Completed?
    ensures
      var receipt := t.receipts[t.clients[id].key];
      && (t.clients[id].fingerprint == receipt.fingerprint ==> IsAnswered(u, id, Replied(receipt.state.result, true)))
      && (t.clients[id].fingerprint != receipt.fingerprint ==> IsAnswered(u, id, KeyUsedDifferently))
  {
  }

  lemma CompletedStays(moves: seq<(Id, Move)>, more: seq<(Id, Move)>, key: Key)
    requires key in Run(moves).receipts && Run(moves).receipts[key].state.Completed?
    ensures key in Run(moves + more).receipts && Run(moves + more).receipts[key] == Run(moves).receipts[key]
  {
    hide Run, RunFrom, Valid;
    ReachableIsValid(moves);
    CompletedIsForever(Run(moves), more, key);
    RunFromConcat(moves, more);
  }

  /** A client that crashes once it has stored its message leaves its key in progress for good. */
  lemma CrashBlocksKey()
    ensures exists moves, key ::
      && key in Run(moves).receipts && Run(moves).receipts[key].state.InProgress?
      && !CanUnblock(Run(moves), key)
  {
    SafeToken();
    assert Run([]) == EMPTY;
    hide Run, NormalizeToken, CanUnblock;
    var stored := StoresMessage([], 1, "k");
    Snoc(stored, 1, Crash);
    var all := stored + [(1, Crash)];
    BlockedForGoodIff(all, Key(0, 0, "k"));
    assert Run(all).receipts[Key(0, 0, "k")] == Receipt(1, "", InProgress);
    assert Run(all).clients[1].phase == Crashed(true);
  }
}
