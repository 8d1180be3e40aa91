/**
 What the handler has in hand when it moves an operation to its next phase, and
 what is still true of its in-memory record when any call in between failed.
 */
module ShrinkMoves {
  import opened Options
  import opened ShrinkTypes
  import opened ShrinkStore
  import opened ShrinkCluster
  import opened ShrinkProtocol
  import opened ShrinkInvariant
  import opened ShrinkSaves
  import opened ShrinkRely
  import opened ShrinkRuns
  import opened ShrinkWorld
  import opened ShrinkCoordinator
  import opened ShrinkHelpers
  import opened ShrinkStages

  lemma LinkedCanSave(s: State, o: Operation)
    requires IsActive(s) && Linked(s, o) && o.phase in {Queued, Measuring, Copying, Verifying}
    ensures CanSave(s, o, NoUpdate)
  {
    hide Evidence, CommitOk, Keeps;
  }

  lemma CanSaveIgnores(s: State, o: Operation, o': Operation, u: Update)
    requires CanSave(s, o, u) && SameFacts(o, o')
    ensures CanSave(s, o', u)
  {
    hide Evidence, CommitOk;
    EvidenceIgnores(s, o, o');
    SameVolumes(s, o, o');
    if o.phase == s.op.value.phase {
      CommitIgnores(s, o, o');
    }
  }

  lemma KeepsIgnoresPhase(saved: Operation, o: Operation, o': Operation)
    requires Keeps(saved, o) && SameFacts(o.(phase := o'.phase), o')
    ensures Keeps(saved, o')
  {
  }

  // ---------------------------------------------------------------- recovery after errors

  /** What the error path may save for a record that was in memory when a call failed. */
  ghost predicate Recoverable(s: State, o: Operation) {
    IsActive(s) ==>
      && (o.phase == Queued ==> Linked(s, o))
      && (o.phase == Reclaiming ==> CanSave(s, o.(phase := Completed, error := true), NoUpdate))
      && (o.phase !in {Queued, Reclaiming, RollingBack} ==> CanSave(s, AsRollback(o), ToStopping))
  }

  function AsRollback(o: Operation): Operation { o.(phase := RollingBack, error := true) }

  ghost predicate RollbackReady(s: State, o: Operation) {
    && Known(s, o) && Audited(s, o)
    && Shape(AsRollback(o))
    && (!s.committed ==> SourcesHeld(s, o))
  }

  lemma RollbackEvidence(s: State, o: Operation)
    requires RollbackReady(s, o)
    ensures Evidence(s, AsRollback(o))
  {
    hide SourcesHeld, Known, Shape;
    var o' := AsRollback(o);
    SameVolumesBut(s, o, o');
    forall r: Role ensures o'.Vol(r).verified ==> Accepted(s, o', r, Copy) && Accepted(s, o', r, Verify) {
      assert o'.Vol(r) == o.Vol(r);
    }
  }

  lemma SameVolumesBut(s: State, o: Operation, o': Operation)
    requires SameFacts(o.(phase := o'.phase), o')
    ensures forall r: Role :: o'.Vol(r) == o.Vol(r)
    ensures SourcesHeld(s, o) ==> SourcesHeld(s, o')
    ensures DestinationsHeld(s, o) ==> DestinationsHeld(s, o')
    ensures Known(s, o) ==> Known(s, o')
    ensures SourcesGone(s, o) ==> SourcesGone(s, o')
    ensures forall r: Role, stage :: Accepted(s, o, r, stage) ==> Accepted(s, o', r, stage)
  {
    assert forall r: Role :: o'.Vol(r) == o.Vol(r);
  }

  lemma RollbackShape(o: Operation)
    requires Shape(o) && o.phase != Queued && (o.phase == Failed ==> SizeNoted(o, Home) && SizeNoted(o, Temporary))
    ensures Shape(AsRollback(o))
  {
  }

  /** Once the phase says so, the Switch is a fact; before that the sources are held. */
  lemma NextIsReady(s: State, o: Operation)
    requires Inv(s) && IsActive(s) && Keeps(s.op.value, o) && Evidence(s, o)
    requires o.phase !in {Queued, Failed}
    requires SwitchedPhase(o.phase) && o.phase != Resuming ==> SwitchedPhase(s.op.value.phase)
    ensures RollbackReady(s, o)
  {
    hide SourcesHeld, DestinationsHeld, Known, Audited, Shape, Twins, SourcesGone, Keeps, Base;
    RollbackShape(o);
  }

  lemma FailedIsReady(s: State, o: Operation)
    requires Inv(s) && IsActive(s) && s.op.value.phase == RollingBack
    requires Keeps(s.op.value, o) && Evidence(s, o) && o.phase == Failed
    ensures RollbackReady(s, o)
  {
    hide DestinationsHeld, Known, Audited, Shape, Twins, SourcesGone, Base, SizeNoted;
    StillNoted(s.op.value, o);
    RollbackShape(o);
    if !s.committed {
      forall r: Role ensures o.Vol(r).source == s.op.value.Vol(r).source {
      }
      SameSourcesHeld(s, s.op.value, o);
    }
  }

  lemma StillNoted(saved: Operation, o: Operation)
    requires Shape(saved) && saved.phase == RollingBack && Keeps(saved, o)
    ensures SizeNoted(o, Home) && SizeNoted(o, Temporary)
  {
    hide VolumeShape;
    assert saved.home == saved.Vol(Home) && saved.temporary == saved.Vol(Temporary);
  }

  lemma RollbackSave(s: State, o: Operation)
    requires Inv(s) && IsActive(s) && Keeps(s.op.value, o) && RollbackReady(s, o)
    requires s.op.value.phase == RollingBack ==> o.phase == Failed
    ensures CanSave(s, AsRollback(o), ToStopping)
  {
    hide Evidence, RollbackReady, Base, CommitOk;
    var o' := AsRollback(o);
    RollbackEvidence(s, o);
    KeepsIgnoresPhase(s.op.value, o, o');
    if s.op.value.phase == RollingBack {
      RollbackCommit(s, o');
    }
  }

  lemma RollbackCommit(s: State, o: Operation)
    requires Inv(s) && IsActive(s) && s.op.value.phase == RollingBack && Keeps(s.op.value, o) && o.phase == RollingBack
    ensures CommitOk(s, o)
  {
    hide Evidence, Base;
    assert CommitOk(s, s.op.value);
    forall r: Role ensures o.Vol(r).source == s.op.value.Vol(r).source
                   ensures o.Vol(r).destination == s.op.value.Vol(r).destination {
    }
  }

  lemma ReclaimingSave(s: State, o: Operation)
    requires IsActive(s) && Keeps(s.op.value, o) && Evidence(s, o) && o.phase == Reclaiming
    requires s.op.value.phase in {Resuming, Reclaiming}
    requires s.op.value.phase == Resuming && o.resume ==> s.ws.state == Ready
    ensures CanSave(s, o.(phase := Completed, error := true), NoUpdate)
  {
    var o' := o.(phase := Completed, error := true);
    hide SourcesHeld, DestinationsHeld, Known, Twins, SourcesGone, Keeps, CommitOk, Audited, Shape;
    KeepsIgnoresPhase(s.op.value, o, o');
    SameVolumesBut(s, o, o');
    ReclaimingShape(o);
    FinishedShape(o, o');
    FinishedAudit(s, o, o');
  }

  lemma FinishedShape(o: Operation, o': Operation)
    requires Shape(o) && o.phase in {Resuming, Reclaiming} && SwitchedPhase(o'.phase)
    requires o'.id == o.id && o'.home == o.home && o'.temporary == o.temporary && o'.switched == o.switched
    requires o'.originalHome == o.originalHome && o'.originalTemporary == o.originalTemporary
    requires o'.phase in {Completed, Reclaiming} ==> o'.reclaimable
    ensures Shape(o')
  {
  }

  lemma ReclaimingShape(o: Operation)
    requires Shape(o) && o.phase == Reclaiming
    ensures o.reclaimable
  {
  }

  lemma FinishedAudit(s: State, o: Operation, o': Operation)
    requires Audited(s, o) && o'.phase in {Completed, Reclaiming, Reclaimed}
    requires o'.home == o.home && o'.temporary == o.temporary
    ensures Audited(s, o')
  {
    forall r: Role ensures o'.Vol(r).verified ==> Accepted(s, o', r, Copy) && Accepted(s, o', r, Verify) {
      assert o'.Vol(r) == o.Vol(r);
    }
  }

  /** A failure before the phase was changed in memory. */
  lemma RecoverLinked(s: State, o: Operation)
    requires Inv(s) && Linked(s, o)
    ensures Recoverable(s, o)
  {
    hide Evidence, CommitOk, Keeps, Base, CanSave;
    if IsActive(s) && o.phase == Reclaiming {
      ReclaimingSave(s, o);
    } else if IsActive(s) && o.phase !in {Queued, RollingBack} {
      NextIsReady(s, o);
      RollbackSave(s, o);
    }
  }

  /** A failure to save the record of the next phase. */
  lemma RecoverNext(s: State, o: Operation, u: Update)
    requires Inv(s) && CanSave(s, o, u) && o.phase != s.op.value.phase && o.phase != RollingBack
    requires s.op.value.phase == Queued ==> o.phase == Stopping
    ensures Recoverable(s, o)
  {
    hide Evidence, CommitOk, Keeps, Base;
    if o.phase == Reclaiming {
      ReclaimingSave(s, o);
    } else if o.phase == Failed {
      FailedIsReady(s, o);
      RollbackSave(s, o);
    } else {
      NextIsReady(s, o);
      RollbackSave(s, o);
    }
  }

  /** Whatever became of a save that was reported as failed, the error path can go on. */
  lemma RecoverSave(s: State, mid: State, o: Operation, u: Update)
    requires Inv(s) && Inv(mid) && CanSave(mid, o, u) && o.phase != RollingBack
    requires mid.op.value.phase == Queued ==> o.phase in {Queued, Stopping}
    requires s == mid || Linked(s, o)
    ensures Recoverable(s, o)
  {
    hide Inv, CanSave, Evidence, CommitOk, Keeps, Recoverable;
    if Linked(s, o) {
      RecoverLinked(s, o);
    } else {
      UnlinkedMoved(s, o, u);
      RecoverNext(s, o, u);
    }
  }

  lemma UnlinkedMoved(s: State, o: Operation, u: Update)
    requires CanSave(s, o, u) && !Linked(s, o)
    ensures o.phase != s.op.value.phase
  {
  }

  // --------------------------------------------------------------------- the next phase

  function Moved(o: Operation, p: Phase, now: int): Operation { o.(phase := p, updatedAt := now) }

  lemma MoveToStopping(s: State, o: Operation, now: int)
    requires IsActive(s) && Linked(s, o) && o.phase == Queued && Discovered(o)
    requires forall q: Role :: SourceHeld(s, o, q)
    ensures CanSave(s, Moved(o, Stopping, now), ToStopping)
  {
    var o' := Moved(o, Stopping, now);
    hide Keeps, CommitOk, Known, SourceHeld, SourcesHeld, SourcesNamed, Shape;
    KeepsIgnoresPhase(s.op.value, o, o');
    SameVolumesBut(s, o, o');
    ShapeUnverified(o);
    assert SourcesHeld(s, o) by { AllHeld(s, o); }
    StoppingShape(o, now);
  }

  lemma AllHeld(s: State, o: Operation)
    requires SourcesNamed(s, o) && o.home.source.Some? && forall q: Role :: SourceHeld(s, o, q)
    ensures SourcesHeld(s, o)
  {
    forall r: Role | o.Vol(r).source.Some?
      ensures Solid(s, o.Vol(r).source.value) && Unownable(s, o.Vol(r).source.value.name)
    {
      assert SourceHeld(s, o, r);
    }
  }

  lemma StoppingShape(o: Operation, now: int)
    requires Shape(o) && o.phase == Queued && Discovered(o)
    ensures Shape(Moved(o, Stopping, now))
  {
    assert o.home == o.Vol(Home) && o.temporary == o.Vol(Temporary);
  }

  lemma MoveToMeasuring(s: State, o: Operation, now: int)
    requires IsActive(s) && Linked(s, o) && o.phase == Stopping && Offline(s)
    ensures CanSave(s, Moved(o, Measuring, now), ToStopped)
  {
    var o' := Moved(o, Measuring, now);
    hide Keeps, CommitOk, Known, SourcesHeld, Offline;
    KeepsIgnoresPhase(s.op.value, o, o');
    SameVolumesBut(s, o, o');
  }

  lemma MoveToCopying(s: State, o: Operation, now: int)
    requires IsActive(s) && Linked(s, o) && o.phase == Measuring
    requires forall r: Role :: o.Vol(r).target.Some? ==> o.Vol(r).used.Some? && o.Vol(r).destination.Some?
    ensures CanSave(s, Moved(o, Copying, now), NoUpdate)
  {
    var o' := Moved(o, Copying, now);
    hide Keeps, CommitOk, Known, SourcesHeld, DestinationsHeld, Offline;
    KeepsIgnoresPhase(s.op.value, o, o');
    SameVolumesBut(s, o, o');
    assert o.home == o.Vol(Home) && o.temporary == o.Vol(Temporary);
  }

  lemma NoneRunning(s: State, o: Operation)
    requires Inv(s) && Linked(s, o) && forall r: Role :: o.Vol(r).target.Some? ==> CopyDone(s, o, r)
    ensures NoCopyRunning(s)
  {
    forall h | h in s.helpers && h.stage == Copy ensures s.helpers[h].phase != Running {
      assert HelperOk(s, h);
      assert h == HelperName(o.id, h.role, Copy);
      assert CopyDone(s, o, h.role);
    }
  }

  lemma NoVerifiers(s: State, o: Operation)
    requires Inv(s) && Linked(s, o) && o.phase == Copying
    ensures forall h :: h in s.helpers ==> h.stage != Verify
  {
    assert forall h :: h in s.helpers ==> HelperOk(s, h);
  }

  lemma MoveToVerifying(s: State, o: Operation, now: int)
    requires Inv(s) && IsActive(s) && Linked(s, o) && o.phase == Copying
    requires forall r: Role :: o.Vol(r).target.Some? ==> CopyDone(s, o, r)
    ensures CanSave(s, Moved(o, Verifying, now), NoUpdate)
  {
    var o' := Moved(o, Verifying, now);
    NoneRunning(s, o);
    NoVerifiers(s, o);
    hide Keeps, CommitOk, Known, SourcesHeld, DestinationsHeld, Offline, NoCopyRunning, Inv, Twin, Shape, CopyDone;
    KeepsIgnoresPhase(s.op.value, o, o');
    SameVolumesBut(s, o, o');
    ShapeUnverified(o);
    CopiesAudited(s, o, o');
    VerifyingShape(o, now);
  }

  lemma VerifyingShape(o: Operation, now: int)
    requires Shape(o) && o.phase == Copying
    ensures Shape(Moved(o, Verifying, now))
  {
  }

  lemma CopiesAudited(s: State, o: Operation, o': Operation)
    requires SameFacts(o.(phase := o'.phase), o') && forall r: Role :: !o.Vol(r).verified
    requires forall r: Role :: o.Vol(r).target.Some? ==> CopyDone(s, o, r)
    ensures Audited(s, o')
  {
    SameVolumesBut(s, o, o');
    forall r: Role | o'.Vol(r).target.Some? ensures Accepted(s, o', r, Copy) {
      assert CopyDone(s, o, r);
    }
  }

  /** The record after a role has been verified. */
  function Verified(o: Operation, r: Role, i: Identity): Operation {
    o.WithVol(r, o.Vol(r).(destinationVolume := Some(i), verified := true))
  }

  lemma RoleVerified(s: State, o: Operation, r: Role, i: Identity)
    requires Linked(s, o) && o.phase == Verifying && o.Vol(r).target.Some?
    requires Accepted(s, o, r, Verify) && Twin(s, o.Vol(r))
    ensures Linked(s, Verified(o, r, i))
  {
    var o' := Verified(o, r, i);
    hide Known, SourcesHeld, DestinationsHeld, Offline, NoCopyRunning, Twins, Audited, CommitOk, Keeps, Shape;
    VerifiedShape(s.op.value, o, r, i);
    VerifiedTwins(s, o, r, i);
    VerifiedAudit(s, o, r, i);
    VerifiedHolds(s, o, r, i);
  }

  lemma VerifiedHolds(s: State, o: Operation, r: Role, i: Identity)
    requires Known(s, o) && SourcesHeld(s, o) && DestinationsHeld(s, o) && CommitOk(s, o)
    ensures var o' := Verified(o, r, i);
            Known(s, o') && SourcesHeld(s, o') && DestinationsHeld(s, o') && CommitOk(s, o')
  {
    var o' := Verified(o, r, i);
    assert forall q: Role ::
        o'.Vol(q).source == o.Vol(q).source && o'.Vol(q).destination == o.Vol(q).destination
        && o'.Vol(q).sourceVolume == o.Vol(q).sourceVolume;
    SameSourcesHeld(s, o, o');
  }

  lemma VerifiedShape(saved: Operation, o: Operation, r: Role, i: Identity)
    requires Shape(o) && Keeps(saved, o) && o.phase == saved.phase == Verifying && o.Vol(r).target.Some?
    ensures Shape(Verified(o, r, i)) && Keeps(saved, Verified(o, r, i))
  {
  }

  lemma VerifiedTwins(s: State, o: Operation, r: Role, i: Identity)
    requires Twins(s, o) && Twin(s, o.Vol(r))
    ensures Twins(s, Verified(o, r, i))
  {
    var o' := Verified(o, r, i);
    forall q: Role ensures Twin(s, o.Vol(q)) ==> Twin(s, o'.Vol(q)) {
    }
  }

  lemma VerifiedAudit(s: State, o: Operation, r: Role, i: Identity)
    requires Audited(s, o) && o.phase == Verifying && o.Vol(r).target.Some? && Accepted(s, o, r, Verify)
    ensures Audited(s, Verified(o, r, i))
  {
    var o' := Verified(o, r, i);
    forall q: Role, stage ensures Accepted(s, o', q, stage) == Accepted(s, o, q, stage) {
    }
    assert Accepted(s, o', r, Copy) && Accepted(s, o', r, Verify);
  }

  lemma MoveToSwitching(s: State, o: Operation, now: int)
    requires IsActive(s) && Linked(s, o) && o.phase == Verifying && AllVerified(o)
    ensures CanSave(s, Moved(o, Switching, now), NoUpdate)
  {
    var o' := Moved(o, Switching, now);
    hide Keeps, CommitOk, Known, SourcesHeld, DestinationsHeld, Offline, NoCopyRunning, Accepted, Twin;
    KeepsIgnoresPhase(s.op.value, o, o');
    SameVolumesBut(s, o, o');
    assert forall r: Role :: o'.Vol(r) == o.Vol(r);
  }

  function AsSwitched(o: Operation, now: int): Operation { Moved(o, Resuming, now).(switched := true) }

  lemma MoveToResuming(s: State, o: Operation, now: int)
    requires IsActive(s) && Linked(s, o) && o.phase == Switching && Offline(s) && s.helpers == map[]
    ensures CanSave(s, AsSwitched(o, now), Switch)
  {
    var o' := AsSwitched(o, now);
    hide Known, SourcesHeld, DestinationsHeld, Offline, NoCopyRunning, Accepted, Twin, CommitOk;
    assert forall r: Role :: o'.Vol(r) == o.Vol(r);
    SwitchedFacts(s, o, o');
  }

  lemma SwitchedFacts(s: State, o: Operation, o': Operation)
    requires o'.id == o.id && o'.home == o.home && o'.temporary == o.temporary
    ensures SourcesHeld(s, o) ==> SourcesHeld(s, o')
    ensures DestinationsHeld(s, o) ==> DestinationsHeld(s, o')
    ensures Known(s, o) ==> Known(s, o')
    ensures forall r: Role, stage :: Accepted(s, o, r, stage) ==> Accepted(s, o', r, stage)
  {
    assert forall r: Role :: o'.Vol(r) == o.Vol(r);
  }

  lemma MoveToStarting(s: State, o: Operation, now: int)
    requires IsActive(s) && Linked(s, o) && o.phase == Resuming
    ensures CanSave(s, o.(updatedAt := now), ToStarting)
  {
    var o' := o.(updatedAt := now);
    hide Evidence, CommitOk, Keeps;
    EvidenceIgnores(s, o, o');
    CommitIgnores(s, o, o');
    KeepsIgnoresPhase(s.op.value, o, o');
  }

  function AsRecovered(o: Operation, now: int): Operation {
    Moved(o, if o.reclaimSource then Reclaiming else Completed, now).(reclaimable := true)
  }

  lemma MoveToRecovered(s: State, o: Operation, now: int)
    requires IsActive(s) && Linked(s, o) && o.phase == Resuming && (o.resume ==> s.ws.state == Ready)
    ensures CanSave(s, AsRecovered(o, now), NoUpdate)
  {
    var o' := AsRecovered(o, now);
    hide Keeps, CommitOk, Known, SourcesHeld, DestinationsHeld, Offline, NoCopyRunning, Accepted, Twins, Shape;
    KeepsIgnoresPhase(s.op.value, o, o');
    SameVolumesBut(s, o, o');
    FinishedShape(o, o');
  }

  lemma MoveToFailed(s: State, o: Operation, now: int, u: Update)
    requires IsActive(s) && Linked(s, o) && s.helpers == map[]
    requires (o.phase == Queued && o.error && u == NoUpdate)
             || (o.phase == RollingBack && u == (if o.switched then ToStopped else Rollback) && RollbackDone(s, o))
    ensures CanSave(s, Moved(o, Failed, now), u)
  {
    var o' := Moved(o, Failed, now);
    hide Keeps, CommitOk, Known, SourcesHeld, DestinationsHeld, Offline, NoCopyRunning, Accepted, Twins, Solid;
    KeepsIgnoresPhase(s.op.value, o, o');
    SameVolumesBut(s, o, o');
  }

  function AsReclaimed(o: Operation, now: int): Operation {
    Moved(o, Reclaimed, now).(sourcesRetained := false, reclaimable := false)
  }

  lemma MoveToReclaimed(s: State, o: Operation, now: int)
    requires IsActive(s) && Linked(s, o) && o.phase == Reclaiming && SourcesGone(s, o)
    ensures CanSave(s, AsReclaimed(o, now), NoUpdate)
  {
    var o' := AsReclaimed(o, now);
    hide Keeps, CommitOk, Known, SourcesHeld, DestinationsHeld, Offline, NoCopyRunning, Accepted, Twins, Shape,
         SourcesGone;
    KeepsIgnoresPhase(s.op.value, o, o');
    SameVolumesBut(s, o, o');
    FinishedShape(o, o');
  }

  // ----------------------------------------------------------------------- measurements

  function Measured(o: Operation, r: Role, u: Usage): Operation { o.WithVol(r, o.Vol(r).(used := Some(u))) }

  lemma MeasuredLinked(s: State, o: Operation, r: Role, u: Usage)
    requires Linked(s, o) && o.phase == Measuring && o.Vol(r).target.Some? && o.Vol(r).used.None?
    requires UsageBelowTarget(Measured(o, r, u).Vol(r))
    ensures Linked(s, Measured(o, r, u))
  {
    var o' := Measured(o, r, u);
    hide Known, SourcesHeld, DestinationsHeld, Offline, CommitOk, Accepted, Keeps, Shape, UsageBelowTarget;
    MeasuredShape(s.op.value, o, r, u);
    MeasuredHolds(s, o, r, u);
    assert forall q: Role :: !o'.Vol(q).verified by { ShapeUnverified(o'); }
  }

  lemma ShapeUnverified(o: Operation)
    requires Shape(o) && o.phase in {Queued, Measuring, Copying}
    ensures forall q: Role :: !o.Vol(q).verified
  {
  }

  lemma MeasuredShape(saved: Operation, o: Operation, r: Role, u: Usage)
    requires Shape(o) && Keeps(saved, o) && saved.phase == o.phase == Measuring
    requires o.Vol(r).target.Some? && o.Vol(r).used.None?
    ensures Keeps(saved, Measured(o, r, u))
    ensures Shape(AsRollback(Measured(o, r, u)))
    ensures UsageBelowTarget(Measured(o, r, u).Vol(r)) ==> Shape(Measured(o, r, u))
  {
    hide Shape, UsageBelowTarget;
    MeasuredVolumes(o, r, u);
    assert saved.Vol(r).used.None?;
  }

  lemma MeasuredVolumes(o: Operation, r: Role, u: Usage)
    requires Shape(o) && o.phase == Measuring && o.Vol(r).target.Some? && o.Vol(r).used.None?
    ensures Shape(AsRollback(Measured(o, r, u)))
    ensures UsageBelowTarget(Measured(o, r, u).Vol(r)) ==> Shape(Measured(o, r, u))
  {
    MeasuredVolume(o.id, Home, o.home, u);
    MeasuredVolume(o.id, Temporary, o.temporary, u);
    hide VolumeShape, UsageBelowTarget;
  }

  lemma MeasuredVolume(id: nat, r: Role, v: Volume, u: Usage)
    requires VolumeShape(id, r, v, Measuring)
    ensures VolumeShape(id, r, v, RollingBack)
    ensures v.target.Some? ==> VolumeShape(id, r, v.(used := Some(u)), RollingBack)
    ensures v.target.Some? && UsageBelowTarget(v.(used := Some(u))) ==>
              VolumeShape(id, r, v.(used := Some(u)), Measuring)
  {
    hide UsageBelowTarget;
  }

  lemma MeasuredHolds(s: State, o: Operation, r: Role, u: Usage)
    ensures var o' := Measured(o, r, u);
            && (Known(s, o) ==> Known(s, o')) && (SourcesHeld(s, o) ==> SourcesHeld(s, o'))
            && (DestinationsHeld(s, o) ==> DestinationsHeld(s, o')) && (CommitOk(s, o) ==> CommitOk(s, o'))
  {
    var o' := Measured(o, r, u);
    assert forall q: Role ::
        o'.Vol(q).source == o.Vol(q).source && o'.Vol(q).destination == o.Vol(q).destination
        && o'.Vol(q).sourceVolume == o.Vol(q).sourceVolume;
    if SourcesHeld(s, o) {
      SameSourcesHeld(s, o, o');
    }
  }

  /** A target that turned out too small leaves a record that can be rolled back. */
  lemma TooSmallRecovers(s: State, o: Operation, r: Role, u: Usage)
    requires Inv(s) && Linked(s, o) && o.phase == Measuring && o.Vol(r).target.Some? && o.Vol(r).used.None?
    ensures Recoverable(s, Measured(o, r, u))
  {
    var o' := Measured(o, r, u);
    hide Known, SourcesHeld, DestinationsHeld, Offline, CommitOk, Accepted, Keeps, Inv, CanSave;
    MeasuredShape(s.op.value, o, r, u);
    MeasuredHolds(s, o, r, u);
    ShapeUnverified(o);
    assert forall q: Role :: !o'.Vol(q).verified by {
      assert forall q: Role :: o'.Vol(q).verified == o.Vol(q).verified;
    }
    if IsActive(s) {
      RollbackSave(s, o');
    }
  }
}
