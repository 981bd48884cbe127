/** The receipt protocol of inbound provider events: reserve, then dispatch.

    Any number of requests interleave. A receipt is never removed, so an event is handled at
    most once even when handling it fails. */
module InboundEvents {
  import opened Common

  datatype EventKey = EventKey(workspace: Id, account: Id, token: string)

  /** `owner` is the request that inserted the row; `correlation` was generated for that insert. */
  datatype Receipt = Receipt(owner: Id, correlation: Id)

  datatype Answer = Handled(correlation: Id) | Duplicate(correlation: Id) | HandlingFailed | Raced

  datatype Phase = Reserving | Conflicted | Dispatching(correlation: Id) | Handling(correlation: Id) | Answered(answer: Answer) | Crashed

  datatype Request = Request(key: EventKey, phase: Phase)

  /** `handled` is the sequence of calls into `handle_event`. */
  datatype State = State(receipts: map<EventKey, Receipt>, requests: map<Id, Request>, handled: seq<(EventKey, Id)>)

  const EMPTY := State(map[], map[], [])

  datatype Move =
    | Arrive(workspace: Id, account: Id, raw: string)
    | Reserve(correlation: Id)
    | ReadExisting
    | Dispatch
    | Finish(succeeds: bool)
    | Crash

  function Enter(s: State, id: Id, phase: Phase): State
    requires id in s.requests
  {
    s.(requests := s.requests[id := s.requests[id].(phase := phase)])
  }

  /** Two unique constraints guard the insert: the event's key and the correlation id, which is
      whatever the generator returned. */
  predicate Violates(s: State, key: EventKey, correlation: Id) {
    key in s.receipts || exists other :: other in s.receipts && s.receipts[other].correlation == correlation
  }

  /** One step of one request; a move that it is not ready for changes nothing. */
  function Step(s: State, id: Id, move: Move): State {
    if move.Arrive? then
      var token := NormalizeToken(move.raw);
      if id in s.requests || token.None? then s
      else s.(requests := s.requests[id := Request(EventKey(move.workspace, move.account, token.value), Reserving)])
    else if id !in s.requests then s
    else
      var c := s.requests[id];
      match (move, c.phase)
      case (Reserve(correlation), Reserving) =>
        if Violates(s, c.key, correlation) then Enter(s, id, Conflicted)
        else Enter(s, id, Dispatching(correlation)).(receipts := s.receipts[c.key := Receipt(id, correlation)])
      case (ReadExisting, Conflicted) =>
        if c.key in s.receipts then Enter(s, id, Answered(Duplicate(s.receipts[c.key].correlation)))
        else Enter(s, id, Answered(Raced))
      case (Dispatch, Dispatching(correlation)) =>
        Enter(s, id, Handling(correlation)).(handled := s.handled + [(c.key, id)])
      case (Finish(succeeds), Handling(correlation)) =>
        Enter(s, id, Answered(if succeeds then Handled(correlation) else HandlingFailed))
      case (Crash, Answered(_)) => s
      case (Crash, _) => Enter(s, id, Crashed)
      case _ => s
  }

  function Run(moves: seq<(Id, Move)>): State {
    if moves == [] then EMPTY
    else
      var last := moves[|moves| - 1];
      Step(Run(moves[..|moves| - 1]), last.0, last.1)
  }

  // ---- the invariant -----------------------------------------------------------------------

  /** The correlation id that a request has been told or will report. */
  function Known(phase: Phase): Option<Id> {
    match phase
    case Dispatching(correlation) => Some(correlation)
    case Handling(correlation) => Some(correlation)
    case Answered(Handled(correlation)) => Some(correlation)
    case Answered(Duplicate(correlation)) => Some(correlation)
    case _ => None
  }

  ghost predicate RequestSound(s: State, id: Id)
    requires id in s.requests
  {
    var c := s.requests[id];
    && (Known(c.phase).Some? ==> c.key in s.receipts && s.receipts[c.key].correlation == Known(c.phase).value)
    && (c.phase.Dispatching? || c.phase.Handling? ==> s.receipts[c.key].owner == id)
    && (c.phase.Reserving? || c.phase.Dispatching? || c.phase.Conflicted? ==>
          forall m :: m in s.handled ==> m.1 != id)
  }

  ghost predicate ReceiptsSound(s: State) {
    && (forall key :: key in s.receipts ==>
          && s.receipts[key].owner in s.requests && !s.requests[s.receipts[key].owner].phase.Reserving?)
    && (forall k, l :: k in s.receipts && l in s.receipts && k != l ==> s.receipts[k].correlation != s.receipts[l].correlation)
  }

  ghost predicate HandledSound(s: State) {
    && (forall i :: 0 <= i < |s.handled| ==>
          s.handled[i].0 in s.receipts && s.receipts[s.handled[i].0].owner == s.handled[i].1)
    && (forall i, j :: 0 <= i < j < |s.handled| ==> s.handled[i].0 != s.handled[j].0)
  }

  ghost predicate Valid(s: State) {
    && (forall id :: id in s.requests ==> RequestSound(s, id))
    && ReceiptsSound(s)
    && HandledSound(s)
  }

  lemma ArriveKeepsValid(s: State, id: Id, move: Move)
    requires Valid(s) && move.Arrive?
    ensures Valid(Step(s, id, move))
  {
    hide NormalizeToken;
    var t := Step(s, id, move);
    forall other | other in t.requests ensures RequestSound(t, other) {
      if other in s.requests {
        assert RequestSound(s, other);
      } else {
        forall m | m in s.handled ensures m.1 != id {
          var i :| 0 <= i < |s.handled| && s.handled[i] == m;
        }
      }
    }
  }

  lemma ReserveKeepsValid(s: State, id: Id, correlation: Id)
    requires Valid(s) && id in s.requests
    ensures Valid(Step(s, id, Reserve(correlation)))
  {
    var t := Step(s, id, Reserve(correlation));
    assert RequestSound(s, id);
    forall other | other in t.requests ensures RequestSound(t, other) {
      assert RequestSound(s, other);
    }
    ReserveKeepsTables(s, id, correlation);
    hide RequestSound, ReceiptsSound, HandledSound;
  }

  lemma ReserveKeepsTables(s: State, id: Id, correlation: Id)
    requires Valid(s) && id in s.requests
    ensures ReceiptsSound(Step(s, id, Reserve(correlation))) && HandledSound(Step(s, id, Reserve(correlation)))
  {
    hide RequestSound;
  }

  lemma DispatchKeepsValid(s: State, id: Id)
    requires Valid(s) && id in s.requests
    ensures Valid(Step(s, id, Dispatch))
  {
    var t := Step(s, id, Dispatch);
    assert RequestSound(s, id);
    forall other | other in t.requests ensures RequestSound(t, other) {
      assert RequestSound(s, other);
    }
    if s.requests[id].phase.Dispatching? {
      forall i | 0 <= i < |s.handled| ensures s.handled[i].0 != s.requests[id].key {
        assert s.handled[i] in s.handled;
      }
    }
  }

  lemma StepKeepsValid(s: State, id: Id, move: Move)
    requires Valid(s)
    ensures Valid(Step(s, id, move))
  {
    if move.Arrive? {
      ArriveKeepsValid(s, id, move);
    } else if id in s.requests {
      if move.Reserve? {
        ReserveKeepsValid(s, id, move.correlation);
      } else if move.Dispatch? {
        DispatchKeepsValid(s, id);
      } else {
        var t := Step(s, id, move);
        forall other | other in t.requests ensures RequestSound(t, other) {
          assert RequestSound(s, other);
        }
      }
    }
  }

  lemma {:induction false} ReachableIsValid(moves: seq<(Id, Move)>)
    ensures Valid(Run(moves))
  {
    hide Step;
    if moves != [] {
      var last := moves[|moves| - 1];
      hide Valid;
      ReachableIsValid(moves[..|moves| - 1]);
      StepKeepsValid(Run(moves[..|moves| - 1]), last.0, last.1);
    }
  }

  // ---- at most once ------------------------------------------------------------------------

  /** Each event reaches its handler at most once, over all interleavings and failures. */
  lemma HandledAtMostOnce(moves: seq<(Id, Move)>, i: nat, j: nat)
    requires i < j < |Run(moves).handled|
    ensures Run(moves).handled[i].0 != Run(moves).handled[j].0
  {
    ReachableIsValid(moves);
    hide Run;
  }

  /** Two acknowledgements carry the same correlation id exactly when they are for the same event. */
  lemma CorrelationIdentifiesEvent(moves: seq<(Id, Move)>, i: Id, j: Id)
    requires i in Run(moves).requests && j in Run(moves).requests
    requires Known(Run(moves).requests[i].phase).Some? && Known(Run(moves).requests[j].phase).Some?
    ensures Known(Run(moves).requests[i].phase) == Known(Run(moves).requests[j].phase)
            <==> Run(moves).requests[i].key == Run(moves).requests[j].key
  {
    ReachableIsValid(moves);
    hide Run;
    assert RequestSound(Run(moves), i) && RequestSound(Run(moves), j);
  }

  /** A receipt, once inserted, is never changed or removed, whatever becomes of its event. */
  lemma ReceiptsAreForever(s: State, id: Id, move: Move, key: EventKey)
    requires key in s.receipts
    ensures key in Step(s, id, move).receipts && Step(s, id, move).receipts[key] == s.receipts[key]
  {
    hide NormalizeToken;
  }

  // ---- what a failed insert is answered with -----------------------------------------------------

  lemma Snoc(moves: seq<(Id, Move)>, id: Id, move: Move)
    ensures Run(moves + [(id, move)]) == Step(Run(moves), id, move)
  {
    assert (moves + [(id, move)])[..|moves|] == moves;
  }

  lemma OthersLeaveRequest(s: State, other: Id, move: Move, id: Id)
    requires id in s.requests && other != id
    ensures id in Step(s, other, move).requests && Step(s, other, move).requests[id] == s.requests[id]
  {
    hide NormalizeToken, Violates;
  }

  /** Whatever other requests do in between, a request stays where it is and no receipt is lost. */
  lemma {:induction false} Meanwhile(moves: seq<(Id, Move)>, between: seq<(Id, Move)>, id: Id)
    requires id in Run(moves).requests
    requires forall i :: 0 <= i < |between| ==> between[i].0 != id
    ensures id in Run(moves + between).requests && Run(moves + between).requests[id] == Run(moves).requests[id]
    ensures forall key :: key in Run(moves).receipts ==>
      key in Run(moves + between).receipts && Run(moves + between).receipts[key] == Run(moves).receipts[key]
  {
    hide Step;
    if between == [] {
      assert moves + between == moves;
    } else {
      var front, last := between[..|between| - 1], between[|between| - 1];
      Meanwhile(moves, front, id);
      assert moves + between == (moves + front) + [(last.0, last.1)];
      Snoc(moves + front, last.0, last.1);
      OthersLeaveRequest(Run(moves + front), last.0, last.1, id);
      forall key | key in Run(moves).receipts
        ensures key in Run(moves + between).receipts && Run(moves + between).receipts[key] == Run(moves).receipts[key]
      {
        ReceiptsAreForever(Run(moves + front), last.0, last.1, key);
      }
    }
  }

  /** The insert of a request, any steps of other requests, and its read of the receipt. The read
      finds the receipt that the event has by then, whoever reserved it in the meantime. The
      request raises exactly when there still is none; then the insert failed only because its
      correlation id was already another event's, and the request has handled nothing. */
  lemma FailedInsertExplained(before: seq<(Id, Move)>, id: Id, correlation: Id, between: seq<(Id, Move)>)
    requires id in Run(before).requests && Run(before).requests[id].phase == Reserving
    requires forall i :: 0 <= i < |between| ==> between[i].0 != id
    ensures
      var s, key := Run(before), Run(before).requests[id].key;
      var waiting := before + [(id, Reserve(correlation))] + between;
      var t, u := Run(waiting), Run(waiting + [(id, ReadExisting)]);
      && id in u.requests
      && (u.requests[id].phase == Answered(Raced) <==> key !in t.receipts)
      && (u.requests[id].phase == Answered(Raced) ==>
            && key !in s.receipts
            && (exists other :: other in s.receipts && other != key && s.receipts[other].correlation == correlation)
            && u.receipts == t.receipts && forall m :: m in u.handled ==> m.1 != id)
      && (Violates(s, key, correlation) && key in t.receipts ==>
            u.requests[id].phase == Answered(Duplicate(t.receipts[key].correlation)))
      && (!Violates(s, key, correlation) ==> u.requests[id].phase == Dispatching(correlation))
  {
    var key := Run(before).requests[id].key;
    var reserved := before + [(id, Reserve(correlation))];
    var waiting := reserved + between;
    Snoc(before, id, Reserve(correlation));
    ReserveAnswers(Run(before), id, correlation);
    Meanwhile(reserved, between, id);
    Snoc(waiting, id, ReadExisting);
    ReachableIsValid(waiting);
    assert RequestSound(Run(waiting), id);
    hide Run, Valid, RequestSound;
    ReadAnswers(Run(waiting), id);
  }

  lemma ReserveAnswers(s: State, id: Id, correlation: Id)
    requires id in s.requests && s.requests[id].phase == Reserving
    ensures
      var t, key := Step(s, id, Reserve(correlation)), s.requests[id].key;
      && id in t.requests && t.requests[id].key == key
      && (Violates(s, key, correlation) ==> t.requests[id].phase == Conflicted && t.receipts == s.receipts)
      && (!Violates(s, key, correlation) ==> t.requests[id].phase == Dispatching(correlation) && key in t.receipts)
  {
    hide NormalizeToken;
  }

  lemma ReadAnswers(s: State, id: Id)
    requires id in s.requests
    ensures
      var t, c := Step(s, id, ReadExisting), s.requests[id];
      && id in t.requests && t.receipts == s.receipts && t.handled == s.handled
      && (!c.phase.Conflicted? ==> t.requests[id] == c)
      && (c.phase.Conflicted? && c.key in s.receipts ==>
            t.requests[id].phase == Answered(Duplicate(s.receipts[c.key].correlation)))
      && (c.phase.Conflicted? && c.key !in s.receipts ==> t.requests[id].phase == Answered(Raced))
  {
    hide NormalizeToken;
  }

  /** Over every run: a request whose handling succeeds reports the correlation id of its event's
      receipt; one whose handling fails reports that, and its receipt stays all the same, so the
      event is not handled again. */
  lemma HandlingIsReported(before: seq<(Id, Move)>, id: Id, succeeds: bool)
    requires id in Run(before).requests && Run(before).requests[id].phase.Handling?
    ensures
      var s, t := Run(before), Run(before + [(id, Finish(succeeds))]);
      var key := s.requests[id].key;
      && key in s.receipts && t.receipts == s.receipts && t.handled == s.handled && id in t.requests
      && (succeeds <==> t.requests[id].phase == Answered(Handled(s.receipts[key].correlation)))
      && (!succeeds <==> t.requests[id].phase == Answered(HandlingFailed))
  {
    ReachableIsValid(before);
    Snoc(before, id, Finish(succeeds));
    hide Run;
    assert RequestSound(Run(before), id);
  }
}
