/**
 Whole-run theorems of the shrink protocol: over every interleaving of handler
 steps, Kubernetes progress, user writes, other requests, and crashes.
 */
module ShrinkRuns {
  import opened Options
  import opened ShrinkTypes
  import opened ShrinkStore
  import opened ShrinkCluster
  import opened ShrinkProtocol
  import opened ShrinkInvariant
  import opened ShrinkSaves
  import opened ShrinkSafety
  import opened ShrinkRely

  /** Before any operation: the claims in use hold what the workspace's Pods wrote. */
  ghost predicate Init(s: State) { Base(s) && s.op.None? && !s.committed }

  /** A workspace that has never been started is such a state, whatever its row says. */
  lemma NewWorkspaceIsInit(state: WorkspaceState, diskGib: u64, temporaryGib: u64)
    ensures Init(State(None, Workspace(state, None, None, diskGib, temporaryGib), None, None, map[], map[],
                       map[], map[], map[], PerRole([], []), false, map[], 0))
  {
  }

  /** The states a run passes through, and the atomic action taken in each. */
  ghost predicate Run(ss: seq<State>, acts: seq<Action>) {
    && |ss| == |acts| + 1
    && Init(ss[0])
    && forall i :: 0 <= i < |acts| ==> Step(ss[i], acts[i], ss[i + 1])
  }

  ghost predicate Step(s: State, a: Action, s': State) { Enabled(a, s) && s' == Effect(a, s) }

  lemma StepKeepsInv(s: State, a: Action, s': State)
    requires Inv(s) && Step(s, a, s')
    ensures Inv(s')
  {
    if EnvEnabled(a, s) {
      EnvStepInv(s, a);
    } else {
      HandlerStepInv(s, a);
    }
  }

  lemma EnvStepInv(s: State, a: Action)
    requires Inv(s) && EnvEnabled(a, s)
    ensures Inv(EnvEffect(a, s))
  {
    if a.Enqueue? {
      EnqueueKeeps(s, a.request, a.now);
    } else if a.Confirm? {
      ConfirmKeeps(s, a.now);
    } else if a.RetryResume? {
      RetryKeeps(s, a.now);
    } else {
      CalmStepInv(s, a);
    }
  }

  lemma CalmStepInv(s: State, a: Action)
    requires Inv(s) && EnvEnabled(a, s) && Calm(a)
    ensures Inv(EnvEffect(a, s))
  {
    SameOp(s, a);
    if s.op.Some? {
      SelfLinked(s);
      EnvKeeps(a, s, s.op.value);
    } else {
      EnvKeeps(a, s, NewOperation(0, Request(None, None, false), s.ws, 0));
    }
  }

  lemma SameOp(s: State, a: Action)
    requires Calm(a) && EnvEnabled(a, s)
    ensures EnvEffect(a, s).op == s.op
  {
    hide WriteClaim, Forget, NewOperation, Applied, Mounted, ClaimAlive, DataOf, RequestAllowed, ConfirmAllowed,
         RetryAllowed;
  }

  lemma SelfLinked(s: State)
    requires Inv(s) && s.op.Some?
    ensures Linked(s, s.op.value)
  {
  }

  lemma HandlerStepInv(s: State, a: Action)
    requires Inv(s) && HandlerEnabled(a, s)
    ensures Inv(HandlerEffect(a, s))
  {
    if a.Save? {
      SaveKeepsInv(s, a.op, a.update);
    } else {
      SelfLinked(s);
      HandlerKeeps(a, s, s.op.value);
      HandlerSameOp(s, a);
    }
  }

  lemma HandlerSameOp(s: State, a: Action)
    requires Calm(a) && HandlerEnabled(a, s)
    ensures HandlerEffect(a, s).op == s.op
  {
  }

  /** The invariant holds in every state of every run, so also wherever a crash cuts it. */
  lemma {:induction false} RunsKeepInv(ss: seq<State>, acts: seq<Action>, i: nat)
    requires Run(ss, acts) && i < |ss|
    ensures Inv(ss[i])
  {
    if i > 0 {
      RunsKeepInv(ss, acts, i - 1);
      assert Step(ss[i - 1], acts[i - 1], ss[i]);
      StepKeepsInv(ss[i - 1], acts[i - 1], ss[i]);
    }
  }

  // -------------------------------------------------------------- what runs guarantee

  /**
   No run loses user data: a claim the workspace is bound to exists, cannot be
   deleted or collected, and holds everything its Pods wrote; and from the moment
   the workspace is stopped until the switch, so does every source.
   */
  lemma UserDataIsNeverLost(ss: seq<State>, acts: seq<Action>, i: nat, r: Role)
    requires Run(ss, acts) && i < |ss|
    ensures var s := ss[i];
            && (s.ws.Bound(r).Some? ==>
                  && Solid(s, s.ws.Bound(r).value)
                  && DataOf(s, s.ws.Bound(r).value.name) == s.user.At(r))
            && (s.op.Some? && NeedsSources(s, s.op.value) && s.op.value.Vol(r).source.Some? ==>
                  && Solid(s, s.op.value.Vol(r).source.value)
                  && s.op.value.Vol(r).source.value.name == s.ws.Eff(r)
                  && DataOf(s, s.ws.Eff(r)) == s.user.At(r))
  {
    RunsKeepInv(ss, acts, i);
    var s := ss[i];
    assert UserDataSafe(s);
    if s.op.Some? && NeedsSources(s, s.op.value) {
      assert SourcesHeld(s, s.op.value);
    }
  }

  /**
   The binding moves only at a Switch committed with no workspace Pod running or
   startable, no helper left, and every targeted volume equal to its source.
   */
  lemma SwitchMovesToEqualVolumes(ss: seq<State>, acts: seq<Action>, i: nat, r: Role)
    requires Run(ss, acts) && i < |acts|
    requires acts[i].Save? && acts[i].update == Switch
    ensures var s, o := ss[i], acts[i].op;
            && Offline(s) && s.helpers == map[] && !s.committed
            && (o.Vol(r).target.Some? ==>
                  && o.Vol(r).verified && Twin(s, o.Vol(r))
                  && o.Vol(r).source.value.name == s.ws.Eff(r)
                  && ss[i + 1].ws.Bound(r) == o.Vol(r).destination)
            && ss[i + 1].user == s.user
  {
    RunsKeepInv(ss, acts, i);
    assert Step(ss[i], acts[i], ss[i + 1]);
    SwitchStep(ss[i], acts[i].op, r);
  }

  lemma SwitchStep(s: State, o: Operation, r: Role)
    requires Inv(s) && HandlerEnabled(Save(o, Switch), s)
    ensures Offline(s) && s.helpers == map[] && !s.committed
    ensures o.Vol(r).target.Some? ==>
              && o.Vol(r).verified && Twin(s, o.Vol(r))
              && o.Vol(r).source.value.name == s.ws.Eff(r)
              && Saved(s, o, Switch).ws.Bound(r) == o.Vol(r).destination
  {
    SwitchFacts(s, o);
    assert SourcesHeld(s, o) && Shape(o) && o.phase == Resuming;
  }

  /** Saved usage is below the target from Copying on, and copy and verify agreed with it. */
  lemma EvidenceIsRecorded(ss: seq<State>, acts: seq<Action>, i: nat, r: Role)
    requires Run(ss, acts) && i < |ss| && ss[i].op.Some?
    requires ss[i].op.value.Vol(r).target.Some?
    ensures var s, o := ss[i], ss[i].op.value; var v := o.Vol(r);
            && (MeasuredPhase(o.phase) || o.switched ==>
                  && v.used.Some? && v.target.value * GIB < U64_LIMIT
                  && v.used.value.bytes < v.target.value * GIB
                  && v.destination.Some? && v.destination.value.name == ShrinkClaim(o.id, r))
            && (VerifiedPhase(o.phase) || o.switched ==>
                  v.verified && Accepted(s, o, r, Copy) && Accepted(s, o, r, Verify))
  {
    RunsKeepInv(ss, acts, i);
    assert Shape(ss[i].op.value) && Audited(ss[i], ss[i].op.value);
  }

  /** Once committed, a Switch is never undone: later writes are never discarded. */
  lemma {:induction false} SwitchIsNeverUndone(ss: seq<State>, acts: seq<Action>, i: nat, j: nat)
    requires Run(ss, acts) && i <= j < |ss| && ss[i].committed
    requires forall k :: i <= k < j ==> !acts[k].Enqueue?
    ensures ss[j].committed && SameBindings(ss[i], ss[j])
  {
    hide Inv, Enabled, Effect;
    if i < j {
      SwitchIsNeverUndone(ss, acts, i, j - 1);
      RunsKeepInv(ss, acts, j - 1);
      assert Step(ss[j - 1], acts[j - 1], ss[j]);
      CommittedStep(ss[j - 1], acts[j - 1]);
    }
  }

  lemma CommittedStep(s: State, a: Action)
    requires Inv(s) && Enabled(a, s) && s.committed && !a.Enqueue?
    ensures Effect(a, s).committed && SameBindings(s, Effect(a, s))
  {
    if EnvEnabled(a, s) {
      EnvLeavesBindings(s, a);
    } else if a.Save? {
      assert CommitOk(s, s.op.value);
    } else {
      HandlerLeavesBindings(s, a);
    }
  }

  lemma EnvLeavesBindings(s: State, a: Action)
    requires EnvEnabled(a, s) && !a.Enqueue?
    ensures EnvEffect(a, s).committed == s.committed && SameBindings(s, EnvEffect(a, s))
  {
    hide EnvEnabled, WriteClaim, Forget, Applied;
  }

  lemma HandlerLeavesBindings(s: State, a: Action)
    requires HandlerEnabled(a, s) && !a.Save?
    ensures HandlerEffect(a, s).committed == s.committed && SameBindings(s, HandlerEffect(a, s))
  {
  }

  /** A Rollback is saved only when the operation's Switch was never committed. */
  lemma RollbackMeansNoSwitch(ss: seq<State>, acts: seq<Action>, i: nat)
    requires Run(ss, acts) && i < |acts| && acts[i].Save? && acts[i].update == Rollback
    ensures !ss[i].committed
    ensures forall r: Role :: ss[i + 1].ws.Eff(r) == ss[i].ws.Eff(r)
  {
    RunsKeepInv(ss, acts, i);
    assert Step(ss[i], acts[i], ss[i + 1]);
    RollbackStep(ss[i], acts[i].op);
  }

  lemma RollbackStep(s: State, o: Operation)
    requires Inv(s) && HandlerEnabled(Save(o, Rollback), s)
    ensures !s.committed
    ensures forall r: Role :: Saved(s, o, Rollback).ws.Eff(r) == s.ws.Eff(r)
  {
    assert CommitOk(s, s.op.value);
    RestoredSources(s, o, Rollback);
    forall r: Role ensures Saved(s, o, Rollback).ws.Eff(r) == s.ws.Eff(r) {
      SourceIsInUse(s, o, r);
    }
  }

  /** A rolled-back operation stays rolling back until it has failed. */
  lemma {:induction false} RollingBackOnlyFails(ss: seq<State>, acts: seq<Action>, i: nat, j: nat)
    requires Run(ss, acts) && i <= j < |ss|
    requires ss[i].op.Some? && ss[i].op.value.phase == RollingBack
    requires forall k :: i <= k < j ==> !acts[k].Enqueue? && !acts[k].RetryResume?
    ensures ss[j].op.Some? && ss[j].op.value.id == ss[i].op.value.id
    ensures ss[j].op.value.phase in {RollingBack, Failed}
  {
    if i < j {
      RollingBackOnlyFails(ss, acts, i, j - 1);
      assert Step(ss[j - 1], acts[j - 1], ss[j]);
      RollingBackStep(ss[j - 1], acts[j - 1]);
    }
  }

  lemma OnlyCompletedConfirms(s: State, a: Action)
    requires EnvEnabled(a, s) && a.Confirm?
    ensures s.op.Some? && s.op.value.phase == Completed
  {
  }

  lemma RollingBackSave(s: State, o: Operation, u: Update)
    requires HandlerEnabled(Save(o, u), s) && s.op.value.phase == RollingBack
    ensures HandlerEffect(Save(o, u), s).op == Some(o)
    ensures o.id == s.op.value.id && o.phase in {RollingBack, Failed}
  {
    hide Evidence;
  }

  lemma RollingBackStep(s: State, a: Action)
    requires Enabled(a, s) && s.op.Some? && s.op.value.phase in {RollingBack, Failed}
    requires !a.Enqueue? && !a.RetryResume?
    ensures Effect(a, s).op.Some? && Effect(a, s).op.value.id == s.op.value.id
    ensures Effect(a, s).op.value.phase in {RollingBack, Failed}
  {
    hide EnvEnabled, EnvEffect, HandlerEnabled, HandlerEffect;
    if EnvEnabled(a, s) {
      OthersNeverSave(s, a);
      if a.Confirm? {
        OnlyCompletedConfirms(s, a);
      } else {
        SameOp(s, a);
      }
    } else {
      HandlerIsActive(s, a);
      if a.Save? {
        RollingBackSave(s, a.op, a.update);
      } else {
        HandlerSameOp(s, a);
      }
    }
  }

  lemma HandlerIsActive(s: State, a: Action)
    requires HandlerEnabled(a, s)
    ensures IsActive(s) && !a.Enqueue? && !a.Confirm? && !a.RetryResume?
  {
    hide SaveEnabled, Reclaimable, Solid;
  }

  lemma OthersNeverSave(s: State, a: Action)
    requires EnvEnabled(a, s)
    ensures !a.Save?
  {
  }

  /** A source claim is gone that the operation still names. */
  ghost predicate Missing(s: State, o: Operation) {
    exists r: Role :: o.Vol(r).source.Some? && o.Vol(r).source.value.name !in s.claims
  }

  /** A rollback that cannot end: a StatefulSet remains, and a source does not. */
  ghost predicate Stuck(s: State) {
    s.op.Some? && s.op.value.phase == RollingBack && s.workload.Some? && Missing(s, s.op.value)
  }

  predicate SameId(s: State, s': State) { s.op.Some? && s'.op.Some? && s'.op.value.id == s.op.value.id }

  lemma StuckIsActive(s: State)
    requires Stuck(s)
    ensures IsActive(s)
  {
  }

  lemma StuckFrame(s: State, s': State)
    requires Stuck(s) && s'.op == s.op && s'.workload.Some? && forall n :: n in s'.claims ==> n in s.claims
    ensures Stuck(s')
  {
    var r: Role :| s.op.value.Vol(r).source.Some? && s.op.value.Vol(r).source.value.name !in s.claims;
    assert s'.op.value.Vol(r).source.value.name !in s'.claims;
  }

  lemma SaveEffect(s: State, o: Operation, u: Update)
    requires HandlerEnabled(Save(o, u), s)
    ensures SaveEnabled(s, o, u) && HandlerEffect(Save(o, u), s) == Saved(s, o, u)
  {
    hide Evidence, Keeps, RollbackDone, Edge, ApplyUpdate;
  }

  lemma StuckSaveStays(s: State, o: Operation, u: Update)
    requires Stuck(s) && SaveEnabled(s, o, u)
    ensures o.phase == RollingBack && Missing(s, o) && o.id == s.op.value.id
  {
    hide Evidence, Offline, ApplyUpdate;
    var r: Role :| s.op.value.Vol(r).source.Some? && s.op.value.Vol(r).source.value.name !in s.claims;
    assert o.Vol(r).source == s.op.value.Vol(r).source;
  }

  lemma StuckSave(s: State, o: Operation, u: Update)
    requires Stuck(s) && HandlerEnabled(Save(o, u), s)
    ensures Stuck(HandlerEffect(Save(o, u), s)) && HandlerEffect(Save(o, u), s).op == Some(o)
    ensures o.id == s.op.value.id
  {
    hide HandlerEnabled, HandlerEffect;
    SaveEffect(s, o, u);
    StuckSaveStays(s, o, u);
    hide SaveEnabled;
  }

  lemma StuckAction(s: State, a: Action)
    requires Stuck(s) && HandlerEnabled(a, s) && !a.Save?
    ensures HandlerEffect(a, s).workload.Some? && HandlerEffect(a, s).claims == s.claims
  {
    hide Missing, SaveEnabled;
  }

  lemma StuckStep(s: State, a: Action)
    requires Inv(s) && Enabled(a, s) && Stuck(s)
    ensures Stuck(Effect(a, s)) && SameId(s, Effect(a, s))
  {
    hide EnvEnabled, EnvEffect, HandlerEnabled, HandlerEffect, Inv, Missing;
    if EnvEnabled(a, s) {
      EnvRely(a, s);
      StuckFrame(s, EnvEffect(a, s));
    } else {
      HandlerIsActive(s, a);
      if a.Save? {
        StuckSave(s, a.op, a.update);
      } else {
        HandlerSameOp(s, a);
        StuckAction(s, a);
        StuckFrame(s, HandlerEffect(a, s));
      }
    }
  }

  /** With a source missing beside a StatefulSet, a rollback never ends: not in any continuation of the run. */
  lemma {:induction false} StuckRollbackNeverEnds(ss: seq<State>, acts: seq<Action>, i: nat, j: nat)
    requires Run(ss, acts) && i <= j < |ss| && Stuck(ss[i])
    ensures Stuck(ss[j]) && SameId(ss[i], ss[j])
  {
    hide Stuck, Inv, Effect, Enabled;
    assert SameId(ss[i], ss[i]) by { StuckIsActive(ss[i]); }
    if i < j {
      StuckRollbackNeverEnds(ss, acts, i, j - 1);
      RunsKeepInv(ss, acts, j - 1);
      assert Step(ss[j - 1], acts[j - 1], ss[j]);
      StuckStep(ss[j - 1], acts[j - 1]);
    }
  }

  /**
   A source is marked, or deleted, only in Reclaiming, while the workspace is bound
   to that volume's verified replacement, a different claim, and only when volume,
   claim reference and CSI handle are the recorded ones; its claim only after the
   reclaim policy is Delete.
   */
  lemma SourcesAreReclaimedSafely(ss: seq<State>, acts: seq<Action>, i: nat)
    requires Run(ss, acts) && i < |acts|
    requires acts[i].MarkPvDelete? || acts[i].DeleteSourceClaim? || acts[i].DeleteSourcePv?
    ensures var s, r := ss[i], acts[i].role;
            && s.op.Some? && Reclaimable(s, s.op.value, r)
            && var v := s.op.value.Vol(r);
               && v.source.value.name != s.ws.Eff(Home) && v.source.value.name != s.ws.Eff(Temporary)
               && Solid(s, v.destination.value)
               && DataOf(s, v.destination.value.name) == s.user.At(r)
               && (acts[i].DeleteSourceClaim? ==>
                     && v.source.value.name in s.claims
                     && s.claims[v.source.value.name].uid == v.source.value.uid
                     && s.pvs[v.sourceVolume.value.pv].policyDelete)
  {
    RunsKeepInv(ss, acts, i);
    assert Step(ss[i], acts[i], ss[i + 1]);
    ReclaimStep(ss[i], acts[i]);
  }

  lemma ReclaimStep(s: State, a: Action)
    requires Inv(s) && HandlerEnabled(a, s)
    requires a.MarkPvDelete? || a.DeleteSourceClaim? || a.DeleteSourcePv?
    ensures Reclaimable(s, s.op.value, a.role)
    ensures var v := s.op.value.Vol(a.role);
            && v.source.value.name != s.ws.Eff(Home) && v.source.value.name != s.ws.Eff(Temporary)
            && Solid(s, v.destination.value)
            && DataOf(s, v.destination.value.name) == s.user.At(a.role)
  {
    var o := s.op.value;
    assert Shape(o) && CommitOk(s, o);
    assert UserDataSafe(s);
    assert s.ws.Bound(Home) == OrElse(o.home.destination, o.home.source);
    assert s.ws.Bound(Temporary) == OrElse(o.temporary.destination, o.temporary.source);
  }

  /** Reclaimed is saved only once nothing is left of any targeted source. */
  lemma ReclaimedMeansGone(ss: seq<State>, acts: seq<Action>, i: nat)
    requires Run(ss, acts) && i < |ss| && ss[i].op.Some? && ss[i].op.value.phase == Reclaimed
    ensures SourcesGone(ss[i], ss[i].op.value)
  {
    RunsKeepInv(ss, acts, i);
  }
}
