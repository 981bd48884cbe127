/** Who decides an approval: someone of the workspace that it concerns, and nobody else. */
module DecisionScope {
  import opened Common
  import opened OutboundModel
  import opened RetryPolicy
  import opened OutboundTables
  import opened OutboundInvariant
  import opened OutboundPreservation
  import opened OutboundTheorems
  import opened OutboundCreation
  import opened OutboundEffects

  /** The approval is for a lead of the workspace, or it gates an action of the workspace. */
  ghost predicate Concerns(s: Tables, approval: Id, workspace: Id) {
    && approval in s.approvals
    && (|| (var lead := s.approvals[approval].lead; lead.Some? && lead.value in s.leads && s.leads[lead.value] == workspace)
        || exists id :: id in s.actions && s.actions[id].approval == Some(approval) && s.actions[id].workspace == workspace)
  }

  /** The approval can be decided by this actor on behalf of this workspace. */
  ghost predicate Decidable(s: Tables, approval: Id, workspace: Id, actor: Actor) {
    && actor.workspace == workspace
    && Concerns(s, approval, workspace)
    && s.approvals[approval].status == AwaitingDecision
  }

  lemma DecidableIff(s: Tables, workspace: Id, approval: Id, actor: Actor)
    ensures PendingDecisionError(s, workspace, approval, actor).None? <==> Decidable(s, approval, workspace, actor)
  {
  }

  /** The tables after a decision: this approval carries it, nothing else changed. */
  ghost predicate Decided(s: Tables, t: Tables, approval: Id, status: ApprovalStatus, actor: Actor, note: Option<string>, now: Time) {
    && approval in s.approvals
    && t == s.(approvals := t.approvals, sent := t.sent)
    && t.approvals == s.approvals[approval := s.approvals[approval].(status := status, decision := Some(Decision(actor, note, now)))]
  }

  /** Approving decides exactly the undecided approvals that concern the actor's workspace, if the
      commit succeeds and, for a lead's message, the channel delivered it first. */
  lemma ApproveAnswers(s: Tables, workspace: Id, approval: Id, actor: Actor, note: Option<string>,
                       delivers: bool, commits: bool, now: Time)
    ensures
      var (t, outcome) := Approve(s, workspace, approval, actor, note, delivers, commits, now);
      && (!Decidable(s, approval, workspace, actor) ==> t == s && outcome.Refused?)
      && (Decidable(s, approval, workspace, actor) ==>
            var isMessage := s.approvals[approval].lead.Some?;
            && t.sent == (if isMessage && delivers then s.sent + [approval] else s.sent)
            && (isMessage && !delivers <==> outcome == Refused(ChannelFailed))
            && (commits && (isMessage ==> delivers) <==> outcome == Ok(approval))
            && (outcome == Ok(approval) ==>
                  Decided(s, t, approval, if isMessage then Executed else Approved, actor, note, now))
            && (outcome != Ok(approval) ==> t == s.(sent := t.sent)))
  {
    hide PendingDecisionError;
    DecidableIff(s, workspace, approval, actor);
  }

  lemma RejectAnswers(s: Tables, workspace: Id, approval: Id, actor: Actor, note: Option<string>, now: Time)
    ensures
      var (t, outcome) := Reject(s, workspace, approval, actor, note, now);
      && (!Decidable(s, approval, workspace, actor) ==> t == s && outcome.Refused?)
      && (Decidable(s, approval, workspace, actor) ==>
            outcome == Ok(approval) && t.sent == s.sent && Decided(s, t, approval, Rejected, actor, note, now))
  {
    hide PendingDecisionError;
    DecidableIff(s, workspace, approval, actor);
  }

  /** Which refusal is answered: a foreign actor first, then an approval that does not concern the
      workspace, then one that is already decided. */
  lemma DecisionRefusals(s: Tables, workspace: Id, approval: Id, actor: Actor, note: Option<string>,
                         delivers: bool, commits: bool, now: Time)
    ensures
      var approved := Approve(s, workspace, approval, actor, note, delivers, commits, now).1;
      var rejected := Reject(s, workspace, approval, actor, note, now).1;
      && (approved == Refused(ActorMismatch) <==> actor.workspace != workspace)
      && (approved == Refused(ApprovalNotFound) <==> actor.workspace == workspace && !Concerns(s, approval, workspace))
      && (approved == Refused(AlreadyDecided) <==>
            actor.workspace == workspace && Concerns(s, approval, workspace) && s.approvals[approval].status != AwaitingDecision)
      && (rejected == Refused(ActorMismatch) <==> actor.workspace != workspace)
      && (rejected == Refused(ApprovalNotFound) <==> actor.workspace == workspace && !Concerns(s, approval, workspace))
      && (rejected == Refused(AlreadyDecided) <==>
            actor.workspace == workspace && Concerns(s, approval, workspace) && s.approvals[approval].status != AwaitingDecision)
  {
  }

  // ---- over runs -----------------------------------------------------------------------------

  lemma AttemptsLeaveApprovals(s: Tables, c: Command)
    requires c.DoDeliver? || c.DoRetry?
    ensures Step(s, c).0.approvals == s.approvals && Step(s, c).0.sent == s.sent
  {
    hide MaxAttemptNumber, RefusedBeforeAdapter, ReplyResult, Settled, Stamp, IsExpired, IsBeforeNotBefore, LinkedStatus;
  }

  lemma OthersLeaveDecisions(s: Tables, c: Command)
    requires RowsLinked(s)
    requires !c.DoDeliver? && !c.DoRetry? && !c.DoApprove? && !c.DoReject?
    ensures Step(s, c).0.sent == s.sent
    ensures forall p :: p in Step(s, c).0.approvals ==>
      if p in s.approvals then Step(s, c).0.approvals[p] == s.approvals[p] else Step(s, c).0.approvals[p].decision.None?
  {
    hide Create, Strip, Stamp, IsCleanable, RowsLinked;
    NextIdIsFree(s);
    if c.DoCreate? {
      CreateLeavesDecisions(s, c.workspace, c.account, c.draft, c.now);
    }
  }

  lemma NextIdIsFree(s: Tables)
    requires RowsLinked(s)
    ensures s.nextId !in s.approvals
  {
  }

  lemma CreateLeavesDecisions(s: Tables, workspace: Id, account: Id, d: Draft, now: Time)
    requires RowsLinked(s)
    ensures
      var t := Create(s, workspace, account, d, now).0;
      && t.sent == s.sent
      && forall p :: p in t.approvals ==> if p in s.approvals then t.approvals[p] == s.approvals[p] else t.approvals[p].decision.None?
  {
    hide Strip, HoldsKey, Matches, NormalizedCorrelation;
  }

  /** From `s` to `t` this approval was decided or rewritten, or its message was sent. */
  ghost predicate Touches(s: Tables, t: Tables, p: Id) {
    || (p in s.approvals && (p !in t.approvals || t.approvals[p] != s.approvals[p]))
    || (p in t.approvals && p !in s.approvals && t.approvals[p].decision.Some?)
    || multiset(t.sent)[p] != multiset(s.sent)[p]
  }

  lemma DecisionTouchesOne(s: Tables, c: Command, p: Id)
    requires c.DoApprove? || c.DoReject?
    ensures Touches(s, Step(s, c).0, p) ==> c.approval == p && Decidable(s, p, c.workspace, c.actor)
  {
    hide Approve, Reject, Decidable;
    if c.DoApprove? {
      ApproveAnswers(s, c.workspace, c.approval, c.actor, c.note, c.channelDelivers, c.commits, c.now);
    } else {
      RejectAnswers(s, c.workspace, c.approval, c.actor, c.note, c.now);
    }
    assert multiset(s.sent + [c.approval]) == multiset(s.sent) + multiset{c.approval};
  }

  lemma OthersTouchNone(s: Tables, c: Command, p: Id)
    requires RowsLinked(s)
    requires !c.DoApprove? && !c.DoReject?
    ensures !Touches(s, Step(s, c).0, p)
  {
    hide Step, RowsLinked;
    if c.DoDeliver? || c.DoRetry? {
      AttemptsLeaveApprovals(s, c);
    } else {
      OthersLeaveDecisions(s, c);
      OthersKeepApprovals(s, c);
    }
  }

  lemma OthersKeepApprovals(s: Tables, c: Command)
    requires RowsLinked(s)
    ensures forall p :: p in s.approvals ==> p in Step(s, c).0.approvals
  {
    hide Step;
    StepLetsDecisionsStand(s, c);
  }

  lemma ReachableIsLinked(cs: seq<Command>)
    ensures RowsLinked(Run(cs))
  {
    hide Run;
    ReachableIsValid(cs);
  }

  /** Over every run: a command that decides an approval, or sends its message, is a decision on
      that approval by an actor of the workspace that it names and that the approval concerns. */
  lemma DecidedFromWithin(before: seq<Command>, c: Command, p: Id)
    requires Touches(Run(before), Step(Run(before), c).0, p)
    ensures c.DoApprove? || c.DoReject?
    ensures c.approval == p && Decidable(Run(before), p, c.workspace, c.actor)
  {
    hide Run, Step, Touches, Decidable, RowsLinked;
    ReachableIsLinked(before);
    if c.DoApprove? || c.DoReject? {
      DecisionTouchesOne(Run(before), c, p);
    } else {
      OthersTouchNone(Run(before), c, p);
    }
  }

  // ---- approval safety -----------------------------------------------------------------------

  /** Whoever decided the approval of an action belongs to the workspace of the action. */
  ghost predicate DeciderBelongs(s: Tables, id: Id)
    requires id in s.actions
  {
    var a := s.actions[id];
    a.approval.Some? && a.approval.value in s.approvals && s.approvals[a.approval.value].decision.Some? ==>
      s.approvals[a.approval.value].decision.value.actor.workspace == a.workspace
  }

  /** An approval that concerns a workspace and is linked by an action concerns it through that action. */
  lemma LinkDecidesScope(s: Tables, id: Id, workspace: Id)
    requires LinksSound(s) && id in s.actions && s.actions[id].approval.Some?
    requires Concerns(s, s.actions[id].approval.value, workspace)
    ensures s.actions[id].workspace == workspace
  {
    assert LinkSound(s, id);
  }

  /** A decision names its actor. */
  lemma DecisionIsRecorded(s: Tables, c: Command, p: Id)
    requires (c.DoApprove? || c.DoReject?) && p in s.approvals && p in Step(s, c).0.approvals
    requires Step(s, c).0.approvals[p] != s.approvals[p]
    ensures Step(s, c).0.approvals[p].decision == Some(Decision(c.actor, c.note, c.now))
    ensures c.approval == p && Decidable(s, p, c.workspace, c.actor)
  {
    hide Approve, Reject, Decidable;
    if c.DoApprove? {
      ApproveAnswers(s, c.workspace, c.approval, c.actor, c.note, c.channelDelivers, c.commits, c.now);
    } else {
      RejectAnswers(s, c.workspace, c.approval, c.actor, c.note, c.now);
    }
  }

  /** What a step does to the approval of a known action. */
  lemma KnownActionKeepsDecider(s: Tables, c: Command, id: Id)
    requires RowsLinked(s) && LinksSound(s) && id in s.actions && DeciderBelongs(s, id)
    requires id in Step(s, c).0.actions && SameIdentity(s.actions[id], Step(s, c).0.actions[id])
    ensures DeciderBelongs(Step(s, c).0, id)
  {
    hide Step, RowsLinked;
    var t := Step(s, c).0;
    if s.actions[id].approval.Some? {
      var p := s.actions[id].approval.value;
      assert LinkSound(s, id);
      if c.DoApprove? || c.DoReject? {
        if p in t.approvals && t.approvals[p] != s.approvals[p] {
          DecisionIsRecorded(s, c, p);
          LinkDecidesScope(s, id, c.workspace);
        }
      } else {
        OthersTouchNone(s, c, p);
      }
    }
  }

  /** A new action's approval is undecided. */
  lemma NewActionIsUndecided(s: Tables, c: Command, id: Id)
    requires RowsLinked(s) && id !in s.actions && id in Step(s, c).0.actions
    ensures DeciderBelongs(Step(s, c).0, id)
  {
    if c.DoCreate? {
      hide Strip, HoldsKey, Matches, NormalizedCorrelation;
    } else {
      OnlyCreateAdds(s, c, id);
    }
  }

  lemma OnlyCreateAdds(s: Tables, c: Command, id: Id)
    requires id !in s.actions && !c.DoCreate?
    ensures id !in Step(s, c).0.actions
  {
    hide MaxAttemptNumber, RefusedBeforeAdapter, ReplyResult, Settled, Stamp, IsExpired, IsBeforeNotBefore, LinkedStatus;
    hide Evaluate, InScope, IsCleanable, Strip;
  }

  lemma {:induction false} ReachableDeciderBelongs(cs: seq<Command>, id: Id)
    requires id in Run(cs).actions
    ensures DeciderBelongs(Run(cs), id)
  {
    if cs != [] {
      var front, last := cs[..|cs| - 1], cs[|cs| - 1];
      var s := Run(front);
      ReachableIsLinked(front);
      ReachableLinks(front);
      hide Step, DeciderBelongs, RowsLinked, LinksSound;
      if id in s.actions {
        ReachableDeciderBelongs(front, id);
        KeepsIdentity(s, last, id);
        KnownActionKeepsDecider(s, last, id);
      } else {
        NewActionIsUndecided(s, last, id);
      }
    }
  }

  lemma ReachableLinks(cs: seq<Command>)
    ensures LinksSound(Run(cs)) && GatePassed(Run(cs)) && ApprovalsSound(Run(cs))
    ensures forall id :: id in Run(cs).actions ==> id < Run(cs).nextId
  {
    hide Run;
    ReachableIsValid(cs);
  }

  lemma KeepsIdentity(s: Tables, c: Command, id: Id)
    requires RowsLinked(s) && id in s.actions && id in Step(s, c).0.actions
    ensures SameIdentity(s.actions[id], Step(s, c).0.actions[id])
  {
    hide Step;
    StepKeepsContent(s, c);
  }

  /** Over every run: whenever an adapter is called for an action that requires approval, by a
      delivery or by a retry, its linked approval exists and was approved by an actor of the
      action's own workspace, the workspace in whose name the call was made. */
  lemma EveryCallWasApprovedFromWithin(before: seq<Command>, c: Command)
    requires CallMade(Run(before), c).Some?
    requires c.id in Run(before).actions ==> Run(before).actions[c.id].requiresApproval
    ensures
      var s := Run(before);
      && c.id in s.actions && s.actions[c.id].workspace == c.workspace
      && var p := s.actions[c.id].approval;
         && p.Some? && p.value in s.approvals && s.approvals[p.value].status == Approved
         && s.approvals[p.value].decision.Some?
         && s.approvals[p.value].decision.value.actor.workspace == s.actions[c.id].workspace
  {
    var s := Run(before);
    ReachableLinks(before);
    CallIsNumbered(s, c);
    CallNeedsAction(s, c);
    hide Run, Step, CallMade;
    ReachableDeciderBelongs(before, c.id);
    ApprovedIsDecided(s, c.id);
  }

  lemma ApprovedIsDecided(s: Tables, id: Id)
    requires ApprovalsSound(s) && id in s.actions && LinkedStatus(s, s.actions[id]) == Some(Approved)
    ensures s.approvals[s.actions[id].approval.value].decision.Some?
  {
    assert ApprovalSound(s.approvals[s.actions[id].approval.value]);
  }

  /** An adapter is called only for an action of the workspace whose gate, if any, was passed. */
  lemma CallNeedsAction(s: Tables, c: Command)
    requires (c.DoDeliver? || c.DoRetry?) && CallMade(s, c).Some? && GatePassed(s)
    ensures c.id in s.actions && s.actions[c.id].workspace == c.workspace
    ensures s.actions[c.id].requiresApproval ==> LinkedStatus(s, s.actions[c.id]) == Some(Approved)
  {
    hide MaxAttemptNumber, Attempted, Evaluate, Stamp, IsExpired, IsBeforeNotBefore;
  }
}
