/**
 Why a call of the handler cannot finish a phase: something is still to come, or
 something is in the way. In a world where nobody disturbs a call these are the
 only reasons it has for parking the job, and for failing.
 */
module ShrinkReasons {
  import opened Options
  import opened ShrinkTypes
  import opened ShrinkStore
  import opened ShrinkCluster
  import opened ShrinkProtocol
  import opened ShrinkInvariant
  import opened ShrinkSaves
  import opened ShrinkRely
  import opened ShrinkWorld
  import opened ShrinkCoordinator
  import opened ShrinkHelpers
  import opened ShrinkStages
  import opened ShrinkReclaimer

  /** What has to come before another call can get further than this one. */
  predicate Waiting(s: State, p: Phase, o: Operation) {
    match p
    case Queued => AtWork(s, o, Home, Preflight) || Unobserved(s)
    case Stopping => StillStopping(s)
    case Measuring => exists r: Role :: AtWork(s, o, r, Measure)
    case Copying => exists r: Role :: AtWork(s, o, r, Copy)
    case Verifying => exists r: Role :: AtWork(s, o, r, Verify)
    case Switching => Leaving(s) || StillStopping(s)
    case RollingBack => Leaving(s) || StillStopping(s)
    case _ => false
  }

  /** The workspace has been told to start, or has been seen to be back. */
  predicate ComesBack(before: WorkspaceState, after: WorkspaceState) {
    if before == Stopped then after == Starting else before != Ready && after == Ready
  }

  /** Why a call that was not disturbed leaves the phase as it is. */
  predicate GotOn(s: State, s': State, p: Phase, o: Operation) {
    match p
    case Resuming => o.resume && ComesBack(s.ws.state, s'.ws.state)
    case Reclaiming => exists r: Role :: Advanced(s, s', o, r)
    case _ => Waiting(s', p, o)
  }

  predicate TooSmall(o: Operation, r: Role) {
    o.Vol(r).target.Some? && o.Vol(r).used.Some? && !UsageBelowTarget(o.Vol(r))
  }

  /** A finished helper reports another usage than the one measured. */
  predicate UsageChanged(s: State, o: Operation, r: Role, stage: Stage) {
    var h := HelperName(o.id, r, stage);
    h in s.helpers && s.helpers[h].phase == Succeeded && o.Vol(r).used != Some(s.helpers[h].usage)
  }

  /** What stands in the way of a role's stage. */
  predicate RoleHindered(s: State, p: Phase, o: Operation, r: Role) {
    match p
    case Queued => Undiscoverable(s, o, r) || SourceWrong(s, o, r) || StageWrong(s, o, Home, Preflight)
    case Measuring =>
      && o.Vol(r).target.Some?
      && (|| StageWrong(s, o, r, Measure) || TooSmall(o, r) || o.Vol(r).source.None?
          || CannotReplace(s, o, r, o.Vol(r).source.value, o.Vol(r).target.value))
    case Copying => StageWrong(s, o, r, Copy) || UsageChanged(s, o, r, Copy)
    case Verifying =>
      || StageWrong(s, o, r, Verify) || UsageChanged(s, o, r, Verify)
      || o.Vol(r).destination.None? || Unidentified(s, o.Vol(r).destination.value)
    case Reclaiming => CannotReclaim(s, o, r)
    case _ => false
  }

  /** Why a call that was not disturbed fails. */
  predicate Hindered(s: State, p: Phase, o: Operation) {
    || (exists r: Role :: RoleHindered(s, p, o, r))
    || (p == Stopping && CannotStop(s, o))
    || (p in {Switching, RollingBack} && (Replaced(s, o) || CannotStop(s, o)))
    || (p == Switching && !(VerifiedDestination(o.home) && VerifiedDestination(o.temporary)))
    || (p == Reclaiming && o.resume && s.ws.state != Ready)
  }

  /** The job is done, or parked, or has failed. */
  datatype Reply = Finished | Parked | Failing

  /** Undisturbed, a job is parked only for a reason, and fails only for a reason. */
  predicate Excused(s: State, s': State, p: Phase, o: Operation, reply: Reply) {
    && (reply == Parked ==> s'.op.Some? && (s'.op.value.phase != p || GotOn(s, s', p, o)))
    && (reply == Failing ==> Hindered(s', p, o))
  }

  lemma MovedOn(s: State, s': State, p: Phase, o: Operation)
    requires s'.op.Some? && s'.op.value.phase != p
    ensures Excused(s, s', p, o, Parked)
  {
    hide Hindered, Waiting;
  }

  /** Helpers that are leaving, or a workload that is stopping, excuse the whole; so does what hinders either. */
  lemma ClearExcuses(s: State, s': State, p: Phase, o: Operation, done: Outcome<bool>)
    requires s'.op.Some? && p in {Switching, RollingBack} && done != Ok(true)
    requires done.Err? ==> Replaced(s', o) || CannotStop(s', o)
    requires done == Ok(false) ==> Leaving(s') || StillStopping(s')
    ensures Excused(s, s', p, o, if done.Err? then Failing else Parked)
  {
    hide Replaced, CannotStop, Leaving, StillStopping, RoleHindered, VerifiedDestination;
    NotYes(done);
  }

  lemma StopExcuses(s: State, s': State, o: Operation, done: Outcome<bool>)
    requires s'.op.Some? && done != Ok(true)
    requires done.Err? ==> CannotStop(s', o)
    requires done == Ok(false) ==> StillStopping(s')
    ensures Excused(s, s', Stopping, o, if done.Err? then Failing else Parked)
  {
    hide CannotStop, StillStopping, RoleHindered;
    NotYes(done);
  }

  lemma UnverifiedExcuses(s: State, s': State, o: Operation)
    requires !(VerifiedDestination(o.home) && VerifiedDestination(o.temporary))
    ensures Excused(s, s', Switching, o, Failing)
  {
    hide Replaced, CannotStop, RoleHindered, VerifiedDestination;
  }

  lemma ReclaimExcuses(s: State, s': State, o: Operation, done: Outcome<bool>)
    requires s'.op.Some? && done != Ok(true)
    requires done.Err? ==> exists r: Role :: CannotReclaim(s', o, r)
    requires done == Ok(false) ==> exists r: Role :: Advanced(s, s', o, r)
    ensures Excused(s, s', Reclaiming, o, if done.Err? then Failing else Parked)
  {
    hide CannotReclaim, Advanced;
    NotYes(done);
    if done.Err? {
      var r: Role :| CannotReclaim(s', o, r);
      assert RoleHindered(s', Reclaiming, o, r);
    }
  }

  lemma FinishedExcuses(s: State, s': State, p: Phase, o: Operation)
    ensures Excused(s, s', p, o, Finished)
  {
  }

  lemma NotReadyExcuses(s: State, s': State, o: Operation)
    requires o.resume && s'.ws.state != Ready
    ensures Excused(s, s', Reclaiming, o, Failing)
  {
    hide RoleHindered;
  }

  lemma BackExcuses(s: State, s': State, o: Operation)
    requires s'.op.Some? && o.resume && ComesBack(s.ws.state, s'.ws.state)
    ensures Excused(s, s', Resuming, o, Parked)
  {
    hide Hindered, Waiting, ComesBack;
  }

  lemma ExcusedFrom(s: State, t: State, s': State, p: Phase, o: Operation, reply: Reply)
    requires Excused(t, s', p, o, reply) && p !in {Resuming, Reclaiming}
    ensures Excused(s, s', p, o, reply)
  {
    hide Hindered, Waiting;
  }

  /** A role that is at work, or hindered, excuses the whole. */
  lemma RoleExcuses(s: State, s': State, p: Phase, o: Operation, r: Role, done: Outcome<bool>)
    requires s'.op.Some? && p in {Measuring, Copying, Verifying} && done != Ok(true)
    requires done.Err? ==> RoleHindered(s', p, o, r)
    requires done == Ok(false) ==> AtWork(s', o, r, StageOf(p).value)
    ensures Excused(s, s', p, o, if done.Err? then Failing else Parked)
  {
    hide RoleHindered, AtWork;
    NotYes(done);
  }

  /** The records say the same about the volumes and the Pods. */
  predicate SameRecord(o: Operation, o': Operation) {
    o'.id == o.id && o'.home == o.home && o'.temporary == o.temporary && o'.helperUids == o.helperUids
  }

  /** An answer about a stage outlives a save, and a change of times. */
  lemma ReplyStays(s: State, s': State, o: Operation, o': Operation, r: Role, stage: Stage, res: Outcome<Option<Usage>>)
    requires SameCluster(s, s') && SameRecord(o, o') && StageReply(s, o, r, stage, res)
    ensures StageReply(s', o', r, stage, res)
  {
    assert o'.Vol(r) == o.Vol(r);
  }
}
