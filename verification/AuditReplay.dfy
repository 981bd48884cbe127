/** An automaton over audit events that rebuilds an action's lifecycle from its log alone. */
module AuditReplay {
  import opened Common
  import opened OutboundModel

  datatype Phase = Idle | Retrying | Attempting(since: Time)

  datatype AttemptMark = AttemptMark(number: nat, status: Status, startedAt: Time, completedAt: Option<Time>)

  datatype Replayed =
    | Start
    | Illegal
    | Live(
        status: Status,
        archivedAt: Option<Time>,
        phase: Phase,
        attempts: seq<AttemptMark>,
        deliveredAt: Option<Time>,
        failedAt: Option<Time>,
        cancelledAt: Option<Time>,
        expiredAt: Option<Time>)

  const NEWBORN := Live(Pending, None, Idle, [], None, None, None, None)

  function Next(r: Replayed, e: AuditEvent): Replayed {
    if r.Start? then
      if e.kind == CreatedEvent then NEWBORN else Illegal
    else if r.Illegal? then Illegal
    else
      match (e.kind, r.phase)
      case (RetriedEvent, Idle) => if r.status == Failed then r.(phase := Retrying) else Illegal
      case (AttemptedEvent, Idle) => if r.status == Pending then r.(phase := Attempting(e.at)) else Illegal
      case (AttemptedEvent, Retrying) => r.(phase := Attempting(e.at))
      case (DeliveredEvent, Attempting(since)) =>
        r.(status := Delivered, phase := Idle, deliveredAt := Some(e.at), failedAt := None,
           attempts := r.attempts + [AttemptMark(|r.attempts| + 1, Delivered, since, Some(e.at))])
      case (FailedEvent, Attempting(since)) =>
        r.(status := Failed, phase := Idle, deliveredAt := None, failedAt := Some(e.at),
           attempts := r.attempts + [AttemptMark(|r.attempts| + 1, Failed, since, Some(e.at))])
      case (CancelledEvent, Idle) =>
        if r.status == Pending then r.(status := Cancelled, cancelledAt := Some(e.at)) else Illegal
      case (ExpiredEvent, Idle) =>
        if r.status == Pending then r.(status := Expired, expiredAt := Some(e.at)) else Illegal
      case (ArchivedEvent, Idle) =>
        if IsTerminal(r.status) && r.archivedAt.None? then r.(archivedAt := Some(e.at)) else Illegal
      case (UnarchivedEvent, Idle) =>
        if r.archivedAt.Some? then r.(archivedAt := None) else Illegal
      case _ => Illegal
  }

  function Replay(word: seq<AuditEvent>): Replayed {
    if word == [] then Start else Next(Replay(word[..|word| - 1]), word[|word| - 1])
  }

  lemma ReplayAppend(word: seq<AuditEvent>, e: AuditEvent)
    ensures Replay(word + [e]) == Next(Replay(word), e)
  {
    assert (word + [e])[..|word|] == word;
  }

  lemma ReplayCreation(e: AuditEvent)
    requires e.kind == CreatedEvent
    ensures Replay([e]) == NEWBORN
  {
    ReplayAppend([], e);
    assert [] + [e] == [e];
  }

  // ---- what every accepted log implies ----------------------------------------------

  /** Attempts are numbered 1..n and only the last one may have succeeded. */
  ghost predicate NumberedFromOne(attempts: seq<AttemptMark>) {
    && (forall i :: 0 <= i < |attempts| ==> attempts[i].number == i + 1)
    && (forall i :: 0 <= i < |attempts| - 1 ==> attempts[i].status == Failed)
  }

  ghost predicate WellShaped(r: Replayed)
    requires r.Live?
  {
    && NumberedFromOne(r.attempts)
    && (r.status in {Pending, Cancelled, Expired} ==> r.attempts == [])
    && (r.status in {Failed, Delivered} ==> r.attempts != [] && r.attempts[|r.attempts| - 1].status == r.status)
    && (r.deliveredAt.Some? <==> r.status == Delivered)
    && (r.failedAt.Some? <==> r.status == Failed)
    && (r.cancelledAt.Some? <==> r.status == Cancelled)
    && (r.expiredAt.Some? <==> r.status == Expired)
    && (r.archivedAt.Some? ==> IsTerminal(r.status))
    && (r.phase.Retrying? ==> r.status == Failed)
    && (r.phase.Attempting? ==> r.status in {Pending, Failed})
  }

  lemma NextKeepsShape(r: Replayed, e: AuditEvent)
    requires r.Live? ==> WellShaped(r)
    ensures Next(r, e).Live? ==> WellShaped(Next(r, e))
  {
  }

  lemma {:induction false} ReplayIsWellShaped(word: seq<AuditEvent>)
    ensures Replay(word).Live? ==> WellShaped(Replay(word))
  {
    if word != [] {
      ReplayIsWellShaped(word[..|word| - 1]);
      NextKeepsShape(Replay(word[..|word| - 1]), word[|word| - 1]);
    }
  }

  /** The effect of one completed attempt on the rebuilt lifecycle. */
  function AfterAttempt(r: Replayed, delivered: bool, now: Time): Replayed
    requires r.Live?
  {
    var status := if delivered then Delivered else Failed;
    r.(status := status,
       attempts := r.attempts + [AttemptMark(|r.attempts| + 1, status, now, Some(now))],
       deliveredAt := if delivered then Some(now) else None,
       failedAt := if delivered then None else Some(now))
  }

  lemma NextClosesAttempt(r: Replayed, opening: AuditEvent, closing: AuditEvent, delivered: bool, now: Time)
    requires r.Live? && (r.phase == Retrying || (r.phase == Idle && r.status == Pending))
    requires opening.kind == AttemptedEvent && closing.kind == if delivered then DeliveredEvent else FailedEvent
    requires opening.at == closing.at == now
    ensures Next(Next(r, opening), closing) == AfterAttempt(r.(phase := Idle), delivered, now)
  {
  }

  lemma ReplayAttempt(word: seq<AuditEvent>, more: seq<AuditEvent>, retried: bool, delivered: bool, now: Time)
    requires Replay(word).Live? && Replay(word).phase == Idle
    requires Replay(word).status == if retried then Failed else Pending
    requires |more| == if retried then 3 else 2
    requires retried ==> more[0].kind == RetriedEvent
    requires more[|more| - 2].kind == AttemptedEvent
    requires more[|more| - 1].kind == if delivered then DeliveredEvent else FailedEvent
    requires forall i :: 0 <= i < |more| ==> more[i].at == now
    ensures Replay(word + more) == AfterAttempt(Replay(word), delivered, now)
  {
    hide Replay, AfterAttempt;
    var n := |more|;
    var start := if retried then word + [more[0]] else word;
    if retried {
      ReplayAppend(word, more[0]);
      assert Next(Replay(word), more[0]) == Replay(word).(phase := Retrying);
    }
    hide Next;
    ReplayAppend(start, more[n - 2]);
    ReplayAppend(start + [more[n - 2]], more[n - 1]);
    NextClosesAttempt(Replay(start), more[n - 2], more[n - 1], delivered, now);
    assert word + more == start + [more[n - 2]] + [more[n - 1]];
  }

  // ---- words of one action inside the shared log -------------------------------------

  function EventsOf(log: seq<AuditEvent>, id: Id): seq<AuditEvent> {
    if log == [] then []
    else
      var rest := EventsOf(log[..|log| - 1], id);
      var last := log[|log| - 1];
      if last.action == id then rest + [last] else rest
  }

  lemma {:induction false} EventsOfConcat(log: seq<AuditEvent>, more: seq<AuditEvent>, id: Id)
    ensures EventsOf(log + more, id) == EventsOf(log, id) + EventsOf(more, id)
  {
    if more == [] {
      assert log + more == log;
    } else {
      EventsOfConcat(log, more[..|more| - 1], id);
      assert (log + more)[..|log + more| - 1] == log + more[..|more| - 1];
    }
  }

  lemma {:induction false} EventsOfSingle(more: seq<AuditEvent>, owner: Id, id: Id)
    requires forall i :: 0 <= i < |more| ==> more[i].action == owner
    ensures EventsOf(more, id) == if id == owner then more else []
  {
    if more != [] {
      EventsOfSingle(more[..|more| - 1], owner, id);
    }
  }

  lemma {:induction false} EventsOfFromLog(log: seq<AuditEvent>, id: Id)
    ensures forall e :: e in EventsOf(log, id) ==> e in log && e.action == id
    ensures EventsOf(log, id) != [] ==> exists i :: 0 <= i < |log| && log[i].action == id
  {
    if log != [] {
      EventsOfFromLog(log[..|log| - 1], id);
    }
  }
}
