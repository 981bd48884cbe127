/** Batched deletion of integration-account audit events past their retention. */
module RetentionCleanup {
  import opened Common

  datatype AuditRow = AuditRow(workspace: Id, account: Id, at: Time)

  type Events = map<Id, AuditRow>

  const TICKS_PER_DAY := 86_400_000_000

  predicate IsRetention(days: int) {
    1 <= days <= 3650
  }

  function Cutoff(now: Time, days: int): Time {
    now - days * TICKS_PER_DAY
  }

  predicate IsExpired(row: AuditRow, workspace: Id, cutoff: Time) {
    row.workspace == workspace && row.at < cutoff
  }

  function Expired(events: Events, workspace: Id, cutoff: Time): set<Id> {
    set id | id in events && IsExpired(events[id], workspace, cutoff)
  }

  /** The `size` oldest expired events; ties in age may be broken either way. */
  ghost predicate IsOldestBatch(events: Events, batch: set<Id>, workspace: Id, cutoff: Time, size: nat) {
    var expired := Expired(events, workspace, cutoff);
    && batch <= expired
    && |batch| == (if |expired| < size then |expired| else size)
    && (forall chosen, left :: chosen in batch && left in expired - batch ==> events[chosen].at <= events[left].at)
  }

  method Oldest(events: Events, candidates: set<Id>) returns (id: Id)
    requires candidates != {} && candidates <= events.Keys
    ensures id in candidates
    ensures forall other :: other in candidates ==> events[id].at <= events[other].at
  {
    var remaining := candidates;
    id :| id in remaining;
    remaining := remaining - {id};
    while remaining != {}
      invariant id in candidates && remaining <= candidates
      invariant forall other :: other in candidates - remaining ==> events[id].at <= events[other].at
      decreases |remaining|
    {
      var next :| next in remaining;
      remaining := remaining - {next};
      if events[next].at < events[id].at {
        id := next;
      }
    }
  }

  class AuditTable {
    var events: Events

    constructor (events: Events)
      ensures this.events == events
    {
      this.events := events;
    }

    /** Selects up to `size` identifiers, oldest first. */
    method SelectBatch(workspace: Id, cutoff: Time, size: nat) returns (batch: set<Id>)
      ensures IsOldestBatch(events, batch, workspace, cutoff, size)
    {
      batch := {};
      var left := Expired(events, workspace, cutoff);
      while left != {} && |batch| < size
        invariant batch !! left && batch + left == Expired(events, workspace, cutoff)
        invariant |batch| <= size
        invariant forall chosen, other :: chosen in batch && other in left ==> events[chosen].at <= events[other].at
        decreases |left|
      {
        var id := Oldest(events, left);
        batch, left := batch + {id}, left - {id};
      }
      assert Expired(events, workspace, cutoff) - batch == left;
      assert |Expired(events, workspace, cutoff)| == |batch| + |left|;
    }

    /** Deletes the given rows of the workspace and returns how many there were. */
    method Delete(workspace: Id, ids: set<Id>) returns (count: nat)
      modifies this
      ensures events == old(events) - Belonging(old(events), workspace, ids)
      ensures count == |Belonging(old(events), workspace, ids)|
    {
      count := |Belonging(events, workspace, ids)|;
      events := events - Belonging(events, workspace, ids);
    }

    /** Whatever the batch size, the loop ends with exactly the expired events of this workspace
        gone and counted; a batch size below one is rejected before anything is read. */
    method Cleanup(workspace: Id, days: int, now: Time, batchSize: int) returns (deleted: Option<nat>)
      requires IsRetention(days)
      modifies this
      ensures deleted.None? <==> batchSize < 1
      ensures deleted.None? ==> events == old(events)
      ensures deleted.Some? ==> events == Retained(old(events), workspace, Cutoff(now, days))
      ensures deleted.Some? ==> deleted.value == |Expired(old(events), workspace, Cutoff(now, days))|
      ensures deleted.Some? ==>
        && events.Keys <= old(events).Keys && |events| + deleted.value == |old(events)|
        && forall id :: id in old(events) ==>
             if old(events)[id].workspace == workspace && old(events)[id].at < now - days * 86_400_000_000 then id !in events
             else id in events && events[id] == old(events)[id]
    {
      if batchSize < 1 {
        return None;
      }
      var cutoff := Cutoff(now, days);
      var count := 0;
      ghost var before := events;
      var batch := SelectBatch(workspace, cutoff, batchSize);
      while batch != {}
        invariant IsOldestBatch(events, batch, workspace, cutoff, batchSize)
        invariant Retained(events, workspace, cutoff) == Retained(before, workspace, cutoff)
        invariant count + |Expired(events, workspace, cutoff)| == |Expired(before, workspace, cutoff)|
        decreases |Expired(events, workspace, cutoff)|
      {
        BatchIsDeleted(events, batch, workspace, cutoff);
        var removed := Delete(workspace, batch);
        count := count + removed;
        batch := SelectBatch(workspace, cutoff, batchSize);
      }
      NothingExpired(events, workspace, cutoff);
      RetainedCounts(before, workspace, cutoff);
      deleted := Some(count);
    }
  }

  function Belonging(events: Events, workspace: Id, ids: set<Id>): set<Id> {
    set id | id in ids && id in events && events[id].workspace == workspace
  }

  /** The one-pass filter: every event of another workspace and every event young enough. */
  function Retained(events: Events, workspace: Id, cutoff: Time): Events {
    map id | id in events && !IsExpired(events[id], workspace, cutoff) :: events[id]
  }

  lemma RetainedWithout(events: Events, batch: set<Id>, workspace: Id, cutoff: Time)
    requires batch <= Expired(events, workspace, cutoff)
    ensures Retained(events - batch, workspace, cutoff) == Retained(events, workspace, cutoff)
  {
    forall id ensures id in Retained(events - batch, workspace, cutoff) <==> id in Retained(events, workspace, cutoff) {
    }
  }

  lemma ExpiredWithout(events: Events, batch: set<Id>, workspace: Id, cutoff: Time)
    ensures Expired(events - batch, workspace, cutoff) == Expired(events, workspace, cutoff) - batch
  {
  }

  /** Deleting a batch removes that batch from the expired events and touches nothing retained. */
  lemma BatchIsDeleted(events: Events, batch: set<Id>, workspace: Id, cutoff: Time)
    requires batch <= Expired(events, workspace, cutoff)
    ensures Belonging(events, workspace, batch) == batch
    ensures Expired(events - batch, workspace, cutoff) == Expired(events, workspace, cutoff) - batch
    ensures |Expired(events - batch, workspace, cutoff)| + |batch| == |Expired(events, workspace, cutoff)|
    ensures Retained(events - batch, workspace, cutoff) == Retained(events, workspace, cutoff)
  {
    assert Belonging(events, workspace, batch) == batch;
    ExpiredWithout(events, batch, workspace, cutoff);
    RetainedWithout(events, batch, workspace, cutoff);
    hide Expired, Belonging, Retained;
    var all := Expired(events, workspace, cutoff);
    assert |all| == |all - batch| + |batch|;
  }

  lemma RetainedCounts(events: Events, workspace: Id, cutoff: Time)
    ensures |Retained(events, workspace, cutoff)| + |Expired(events, workspace, cutoff)| == |events|
  {
    var kept := Retained(events, workspace, cutoff);
    assert events.Keys == kept.Keys + Expired(events, workspace, cutoff);
    assert |kept| == |kept.Keys| && |events| == |events.Keys|;
  }

  lemma NothingExpired(events: Events, workspace: Id, cutoff: Time)
    requires Expired(events, workspace, cutoff) == {}
    ensures Retained(events, workspace, cutoff) == events
  {
    assert forall id :: id in events ==> id !in Expired(events, workspace, cutoff);
  }

  /** A second cleanup with the same clock finds nothing, and a later one finds exactly what a
      single cleanup at the later time would have removed on top. */
  lemma CleanupComposes(events: Events, workspace: Id, first: Time, second: Time)
    requires first <= second
    ensures Expired(Retained(events, workspace, first), workspace, first) == {}
    ensures Retained(Retained(events, workspace, first), workspace, second) == Retained(events, workspace, second)
    ensures |Expired(events, workspace, first)| + |Expired(Retained(events, workspace, first), workspace, second)|
         == |Expired(events, workspace, second)|
  {
    var kept := Retained(events, workspace, first);
    assert Expired(events, workspace, second) == Expired(events, workspace, first) + Expired(kept, workspace, second);
  }
}
