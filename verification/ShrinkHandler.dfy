/**
 The job handler: one call advances the saved operation by at most a few saves.
 Every call's trace extends a run of the protocol, whatever fails and wherever it
 stops; what the contracts add is which phases one call can lead to.
 */
module ShrinkHandler {
  import opened Options
  import opened ShrinkTypes
  import opened ShrinkStore
  import opened ShrinkCluster
  import opened ShrinkProtocol
  import opened ShrinkInvariant
  import opened ShrinkSaves
  import opened ShrinkRely
  import opened ShrinkRuns
  import opened ShrinkWorld
  import opened ShrinkCoordinator
  import opened ShrinkHelpers
  import opened ShrinkStages
  import opened ShrinkReclaimer
  import opened ShrinkMoves
  import opened ShrinkReasons

  ghost predicate At(w: World, o: Operation, phases: set<Phase>)
    reads w
  {
    w.s.op.Some? && w.s.op.value.id == o.id && w.s.op.value.phase in phases
  }

  /** A save whose failure the error path can handle. */
  method TrySave(w: World, o: Operation, u: Update) returns (ok: bool)
    requires w.Valid() && CanSave(w.s, o, u) && o.phase != RollingBack
    requires w.s.op.value.phase == Queued ==> o.phase in {Queued, Stopping}
    modifies w
    ensures w.Valid() && old(w.acts) <= w.acts
    ensures ok ==> w.s.op == Some(o) && Linked(w.s, o)
    ensures !ok ==> Recoverable(w.s, o)
    ensures w.s.op == Some(o) || w.s.op == old(w.s.op)
    ensures w.quiet ==> SameCluster(old(w.s), w.s) && ok == ApplyUpdate(old(w.s).ws, o, u).Some?
    ensures w.quiet && ok ==> w.s.ws == ApplyUpdate(old(w.s).ws, o, u).value
    ensures w.quiet && !ok ==> w.s == old(w.s)
  {
    hide Inv, Run, Between, CanSave, Linked, Recoverable, ApplyUpdate;
    ghost var mid;
    ok, mid := w.Commit(o, u);
    BetweenUnsaved(old(w.s), mid);
    BetweenInv(old(w.s), mid);
    if !ok {
      RecoverSave(w.s, mid, o, u);
    }
  }

  // ---------------------------------------------------------------------- helper runs

  lemma ShownSaved(s: State, s': State, o: Operation, r: Role, stage: Stage, u: Usage)
    requires SameCluster(s, s') && Shown(s, o, r, stage, u)
    ensures Shown(s', o, r, stage, u)
  {
    hide Solid, Unownable, SourceGone, NoCopyRunning, Offline;
    SameClusterFacts(s, s');
    assert forall q: Role, g :: Accepted(s', o, q, g) == Accepted(s, o, q, g);
  }

  lemma CopiesSaved(s: State, s': State, o: Operation, r: Role)
    requires SameCluster(s, s')
    ensures KeepsCopies(s, s', o, r)
  {
    assert forall q: Role, g :: Accepted(s', o, q, g) == Accepted(s, o, q, g);
  }

  lemma ShownIgnores(s: State, o: Operation, o': Operation, r: Role, stage: Stage, u: Usage)
    requires SameFacts(o, o') && Shown(s, o, r, stage, u)
    ensures Shown(s, o', r, stage, u)
  {
    hide Twin;
    assert o'.Vol(r) == o.Vol(r);
    assert forall g :: Accepted(s, o', r, g) == Accepted(s, o, r, g);
  }

  lemma CopiesIgnore(s: State, s': State, o: Operation, o': Operation, r: Role)
    requires SameFacts(o, o') && KeepsCopies(s, s', o, r)
    ensures KeepsCopies(s, s', o', r)
  {
    forall q: Role ensures CopyDone(s, o', q) == CopyDone(s, o, q) && CopyDone(s', o', q) == CopyDone(s', o, q) {
      assert Accepted(s, o', q, Copy) == Accepted(s, o, q, Copy);
      assert Accepted(s', o', q, Copy) == Accepted(s', o, q, Copy);
    }
  }

  /** Saving the UIDs of helper Pods takes nothing from what they have shown. */
  method SaveUids(w: World, o: Operation, r: Role, stage: Stage, res: Outcome<Option<Usage>>) returns (ok: bool)
    requires w.Valid() && IsActive(w.s) && Linked(w.s, o) && StageOf(o.phase) == Some(stage)
    requires res.Ok? && res.value.Some? ==> Shown(w.s, o, r, stage, res.value.value)
    modifies w
    ensures w.Valid() && old(w.acts) <= w.acts
    ensures !ok ==> Recoverable(w.s, o)
    ensures ok ==> w.s.op == Some(o) && IsActive(w.s) && Linked(w.s, o) && KeepsCopies(old(w.s), w.s, o, r)
    ensures ok && res.Ok? && res.value.Some? ==> Shown(w.s, o, r, stage, res.value.value)
    ensures w.s.op == Some(o) || w.s.op == old(w.s.op)
    ensures w.quiet ==> ok && SameCluster(old(w.s), w.s)
  {
    hide Inv, Run, Between, CanSave, Linked, Recoverable, Shown, KeepsCopies;
    LinkedCanSave(w.s, o);
    LinkedSame(w.s, o);
    ghost var mid;
    ok, mid := w.Commit(o, NoUpdate);
    BetweenInv(old(w.s), mid);
    BetweenUnsaved(old(w.s), mid);
    if !ok {
      RecoverSave(w.s, mid, o, NoUpdate);
      return;
    }
    CopiesBetween(old(w.s), mid, o, r);
    CopiesSaved(mid, w.s, o, r);
    CopiesTrans(old(w.s), mid, w.s, o, r);
    if res.Ok? && res.value.Some? {
      ShownAfter(old(w.s), mid, o, r, stage, res.value.value);
      ShownSaved(mid, w.s, o, r, stage, res.value.value);
    }
  }

  lemma UidsSameFacts(o: Operation, uids: map<HelperName, nat>, now: int)
    ensures var o' := o.(helperUids := uids, updatedAt := now);
            SameFacts(o, o') && SameButSizes(o, o') && o'.phase == o.phase
  {
  }

  /** `run_shrink_pod`. */
  method RunShrinkPod(w: World, o: Operation, r: Role, stage: Stage, now: int)
    returns (o': Operation, res: Outcome<Option<Usage>>)
    requires w.Valid() && IsActive(w.s) && Linked(w.s, o) && StageOf(o.phase) == Some(stage)
    requires stage != Preflight ==> o.Vol(r).target.Some?
    modifies w
    ensures w.Valid() && old(w.acts) <= w.acts && SameFacts(o, o')
    ensures res.Err? ==> Recoverable(w.s, o')
    ensures res.Ok? ==> IsActive(w.s) && Linked(w.s, o') && KeepsCopies(old(w.s), w.s, o', r)
    ensures res.Ok? && res.value.Some? ==> Shown(w.s, o', r, stage, res.value.value)
    ensures w.s.op == Some(o') || w.s.op == old(w.s.op)
    ensures res.Ok? ==> w.s.op == Some(o') || o' == o
    ensures w.quiet ==> StageReply(w.s, o', r, stage, res)
  {
    hide Inv, Run, Between, CanSave, Linked, Recoverable, Shown, KeepsCopies, Carried, IsActive, StageOf, StageReply,
         SameCluster, SameFacts, SameButSizes, SameRecord;
    o', res := ShrinkPod(w, o, r, stage);
    CarriedLinks(old(w.s), w.s, o, r);
    if o'.helperUids == o.helperUids {
      o' := o;
      UidsSameFacts(o, o.helperUids, o.updatedAt);
      if res.Err? {
        RecoverLinked(w.s, o);
      }
      return;
    }
    ghost var t, noted := w.s, o';
    o' := o'.(updatedAt := now);
    UidsSameFacts(o, o'.helperUids, now);
    LinkedIgnores(w.s, o, o');
    CopiesIgnore(old(w.s), w.s, o, o', r);
    if res.Ok? && res.value.Some? {
      ShownIgnores(w.s, o, o', r, stage, res.value.value);
    }
    var ok := SaveUids(w, o', r, stage, res);
    if !ok {
      return o', Err;
    }
    CopiesTrans(old(w.s), t, w.s, o', r);
    if w.quiet {
      SavedReply(t, w.s, noted, now, r, stage, res);
    }
    if res.Err? {
      RecoverLinked(w.s, o');
    }
  }

  lemma SavedReply(s: State, s': State, o: Operation, now: int, r: Role, stage: Stage, res: Outcome<Option<Usage>>)
    requires SameCluster(s, s') && StageReply(s, o, r, stage, res)
    ensures StageReply(s', o.(updatedAt := now), r, stage, res)
  {
    hide SameCluster, StageReply;
    ReplyStays(s, s', o, o.(updatedAt := now), r, stage, res);
  }

  // ------------------------------------------------------------------------ the phases

  lemma Start(w: World, o: Operation)
    requires w.Valid() && w.s.op == Some(o)
    ensures Linked(w.s, o)
  {
    SelfLinked(w.s);
  }

  lemma UnsavedLinked(s: State, s': State, o: Operation)
    requires Unsaved(s, s') && Linked(s, o)
    ensures Linked(s', o)
  {
  }

  method PreflightPassed(w: World, o: Operation, now: int) returns (o': Operation, reply: Reply)
    requires w.Valid() && w.s.op == Some(o) && o.phase == Queued && Discovered(o)
    modifies w
    ensures w.Valid() && old(w.acts) <= w.acts && o'.id == o.id
    ensures reply == Failing ==> Recoverable(w.s, o') && o'.phase in {Queued, Stopping}
    ensures reply != Finished && At(w, o, {Queued, Stopping})
    ensures reply == Parked ==> w.s.op.value.phase == Stopping || Unobserved(w.s)
    ensures w.quiet && reply == Failing ==> exists r: Role :: SourceWrong(w.s, o', r)
  {
    hide Inv, Run, Between, CanSave, Linked, Recoverable, Unsaved, SourceHeld, SourceWrong;
    Start(w, o);
    var retained := RetainSources(w, o);
    UnsavedLinked(old(w.s), w.s, o);
    SameOperation(old(w.s), w.s);
    if retained.Err? {
      RecoverLinked(w.s, o);
      return o, Failing;
    }
    if !retained.value {
      return o, Parked;
    }
    o' := Moved(o, Stopping, now);
    MoveToStopping(w.s, o, now);
    var ok := TrySave(w, o', ToStopping);
    return o', if ok then Parked else Failing;
  }

  method AdvanceQueued(w: World, o: Operation, now: int) returns (o': Operation, reply: Reply)
    requires w.Valid() && w.s.op == Some(o) && o.phase == Queued
    modifies w
    ensures w.Valid() && old(w.acts) <= w.acts && o'.id == o.id
    ensures reply == Failing ==> Recoverable(w.s, o') && o'.phase in {Queued, Stopping}
    ensures reply != Finished && At(w, o, {Queued, Stopping})
    ensures w.quiet ==> Excused(old(w.s), w.s, Queued, o', reply)
  {
    hide Inv, Run, Between, CanSave, Linked, Recoverable, Unsaved, Discovered, Shown, KeepsCopies, Undiscoverable,
         SourceWrong, StageWrong, AtWork, Ended, ApplyUpdate;
    Start(w, o);
    var ok;
    o', ok := DiscoverSources(w, o);
    LinkedSame(w.s, o');
    BetweenUnsaved(old(w.s), w.s);
    SameOperation(old(w.s), w.s);
    if !ok {
      RecoverLinked(w.s, o');
      if w.quiet {
        ghost var r: Role :| Undiscoverable(w.s, o', r);
        assert RoleHindered(w.s, Queued, o', r);
      }
      return o', Failing;
    }
    LinkedCanSave(w.s, o');
    PlainRow(w.s, o');
    ok := TrySave(w, o', NoUpdate);
    if !ok {
      return o', Failing;
    }
    var res;
    ghost var discovered := o';
    o', res := RunShrinkPod(w, o', Home, Preflight, now);
    DiscoveredIgnores(discovered, o');
    if res.Err? {
      assert w.quiet ==> RoleHindered(w.s, Queued, o', Home);
      return o', Failing;
    }
    if res.value.None? {
      return o', Parked;
    }
    o', reply := PreflightPassed(w, o', now);
    if w.quiet && reply == Failing {
      ghost var r: Role :| SourceWrong(w.s, o', r);
      assert RoleHindered(w.s, Queued, o', r);
    }
  }

  lemma DiscoveredIgnores(o: Operation, o': Operation)
    requires SameFacts(o, o') && Discovered(o)
    ensures Discovered(o')
  {
    assert forall r: Role :: o'.Vol(r) == o.Vol(r);
  }

  method AdvanceStopping(w: World, o: Operation, now: int) returns (o': Operation, reply: Reply)
    requires w.Valid() && w.s.op == Some(o) && o.phase == Stopping
    modifies w
    ensures w.Valid() && old(w.acts) <= w.acts && o'.id == o.id
    ensures reply == Failing ==> Recoverable(w.s, o') && o'.phase in {Stopping, Measuring}
    ensures reply != Finished && At(w, o, {Stopping, Measuring})
    ensures reply == Parked ==> w.s.op.value.phase == Measuring || StillStopping(w.s)
    ensures w.quiet ==> Excused(old(w.s), w.s, Stopping, o', reply)
  {
    hide Inv, Run, Between, CanSave, Linked, Recoverable, Unsaved, SourceHeld, ForeignMount, Offline, HelpersRely,
         Fewer, StillStopping, CannotStop, Excused;
    Start(w, o);
    var stopped := StopWorkload(w, o);
    UnsavedLinked(old(w.s), w.s, o);
    SameOperation(old(w.s), w.s);
    if w.quiet && stopped != Ok(true) {
      StopExcuses(old(w.s), w.s, o, stopped);
    }
    if stopped.Err? {
      RecoverLinked(w.s, o);
      return o, Failing;
    }
    if !stopped.value {
      return o, Parked;
    }
    o', reply := SaveStopped(w, o, now);
    if reply == Parked {
      MovedOn(old(w.s), w.s, Stopping, o');
    }
  }

  method SaveStopped(w: World, o: Operation, now: int) returns (o': Operation, reply: Reply)
    requires w.Valid() && w.s.op == Some(o) && o.phase == Stopping && Linked(w.s, o) && Offline(w.s)
    modifies w
    ensures w.Valid() && old(w.acts) <= w.acts && o'.id == o.id && o'.phase == Measuring
    ensures reply == Failing ==> Recoverable(w.s, o') && At(w, o, {Stopping, Measuring})
    ensures reply != Failing ==> reply == Parked && w.s.op == Some(o')
    ensures w.quiet ==> reply == Parked
  {
    hide Inv, Run, CanSave, Linked, Recoverable, Offline;
    o' := Moved(o, Measuring, now);
    MoveToMeasuring(w.s, o, now);
    var ok := TrySave(w, o', ToStopped);
    return o', if ok then Parked else Failing;
  }

  /** One role's measurement; true once its usage is known and below its target. */
  method MeasureRole(w: World, o: Operation, r: Role, now: int) returns (o': Operation, done: Outcome<bool>)
    requires w.Valid() && w.s.op == Some(o) && o.phase == Measuring
    modifies w
    ensures w.Valid() && old(w.acts) <= w.acts && o'.id == o.id && o'.phase == Measuring
    ensures done.Err? ==> Recoverable(w.s, o')
    ensures done.Ok? ==> w.s.op == Some(o')
    ensures done == Ok(true) ==> (o'.Vol(r).target.Some? ==> o'.Vol(r).used.Some?)
    ensures done.Ok? ==> forall q: Role :: o.Vol(q).used.Some? ==> o'.Vol(q).used.Some?
    ensures forall q: Role :: o'.Vol(q).target == o.Vol(q).target
    ensures At(w, o, {Measuring})
    ensures w.quiet ==>
              && (done.Err? ==> RoleHindered(w.s, Measuring, o', r))
              && (done == Ok(false) ==> AtWork(w.s, o', r, Measure))
  {
    hide Inv, Run, Between, CanSave, Linked, Recoverable, Shown, KeepsCopies, UsageBelowTarget, StageWrong, AtWork,
         Ended, CannotReplace;
    Start(w, o);
    if o.Vol(r).target.None? || o.Vol(r).used.Some? {
      return o, Ok(true);
    }
    var res;
    o', res := RunShrinkPod(w, o, r, Measure, now);
    FactsSame(o, o');
    if res.Err? {
      return o', Err;
    }
    if res.value.None? {
      return o', Ok(false);
    }
    ghost var t := o';
    var ok;
    o', ok := SaveUsage(w, o', r, res.value.value, now);
    return o', if ok then Ok(true) else Err;
  }

  /** A usage below the target is saved; any other fails the operation, and the record says so. */
  method SaveUsage(w: World, o: Operation, r: Role, usage: Usage, now: int) returns (o': Operation, ok: bool)
    requires w.Valid() && IsActive(w.s) && Linked(w.s, o) && o.phase == Measuring
    requires o.Vol(r).target.Some? && o.Vol(r).used.None?
    modifies w
    ensures w.Valid() && old(w.acts) <= w.acts && o'.id == o.id && o'.phase == Measuring
    ensures if ok then w.s.op == Some(o') else Recoverable(w.s, o')
    ensures w.s.op == Some(o') || w.s.op == old(w.s.op)
    ensures forall q: Role ::
              o'.Vol(q).target == o.Vol(q).target && (q == r || o.Vol(q).used.Some? ==> o'.Vol(q).used.Some?)
    ensures w.quiet && !ok ==> TooSmall(o', r)
  {
    hide Inv, Run, Between, CanSave, Linked, Recoverable, UsageBelowTarget, ApplyUpdate, SameCluster;
    LinkedSame(w.s, o);
    o' := Measured(o, r, usage);
    if !UsageBelowTarget(o'.Vol(r)) {
      TooSmallRecovers(w.s, o, r, usage);
      return o', false;
    }
    MeasuredLinked(w.s, o, r, usage);
    LinkedIgnores(w.s, o', o'.(updatedAt := now));
    o' := o'.(updatedAt := now);
    LinkedCanSave(w.s, o');
    PlainRow(w.s, o');
    ok := TrySave(w, o', NoUpdate);
  }

  lemma FactsSame(o: Operation, o': Operation)
    requires SameFacts(o, o')
    ensures forall q: Role :: o'.Vol(q) == o.Vol(q)
  {
  }

  lemma DestinationMade(o: Operation, r: Role, b: Binding)
    ensures var o' := o.WithVol(r, o.Vol(r).(destination := Some(b)));
            && o'.Vol(r).destination.Some?
            && forall q: Role ::
                 && o'.Vol(q).target == o.Vol(q).target && o'.Vol(q).used == o.Vol(q).used
                 && (o.Vol(q).destination.Some? ==> o'.Vol(q).destination.Some?)
  {
  }

  method RequestRole(w: World, o: Operation, r: Role) returns (o': Operation, ok: bool)
    requires w.Valid() && IsActive(w.s) && Linked(w.s, o) && o.phase == Measuring
    modifies w
    ensures w.Valid() && IsActive(w.s) && old(w.acts) <= w.acts && Unsaved(old(w.s), w.s)
    ensures Linked(w.s, o') && o'.id == o.id && o'.phase == Measuring
    ensures ok ==> (o'.Vol(r).target.Some? ==> o'.Vol(r).destination.Some?)
    ensures forall q: Role ::
              && o'.Vol(q).target == o.Vol(q).target && o'.Vol(q).used == o.Vol(q).used
              && (o.Vol(q).destination.Some? ==> o'.Vol(q).destination.Some?)
    ensures w.quiet && !ok ==> RoleHindered(w.s, Measuring, o', r)
  {
    hide Inv, Run, Between, Linked, Unsaved, CannotReplace;
    BetweenRefl(w.s);
    BetweenUnsaved(w.s, w.s);
    if o.Vol(r).target.None? || o.Vol(r).destination.Some? {
      return o, true;
    }
    if o.Vol(r).source.None? {
      return o, false;
    }
    var b := CreateShrinkDestination(w, o, r, o.Vol(r).source.value, o.Vol(r).target.value);
    if b.Err? {
      return o, false;
    }
    DestinationMade(o, r, b.value);
    return o.WithVol(r, o.Vol(r).(destination := Some(b.value))), true;
  }

  method RequestDestinations(w: World, o: Operation, now: int) returns (o': Operation, reply: Reply)
    requires w.Valid() && w.s.op == Some(o) && o.phase == Measuring
    requires forall r: Role :: o.Vol(r).target.Some? ==> o.Vol(r).used.Some?
    modifies w
    ensures w.Valid() && old(w.acts) <= w.acts && o'.id == o.id
    ensures reply == Failing ==> Recoverable(w.s, o') && o'.phase in {Measuring, Copying}
    ensures reply != Finished && At(w, o, {Measuring, Copying})
    ensures w.quiet ==> Excused(old(w.s), w.s, Measuring, o', reply)
  {
    hide Inv, Run, Between, CanSave, Linked, Recoverable, Unsaved, RoleHindered;
    Start(w, o);
    var ok;
    o', ok := RequestRole(w, o, Home);
    SameOperation(old(w.s), w.s);
    if !ok {
      RecoverLinked(w.s, o');
      return o', Failing;
    }
    ghost var t := w.s;
    o', ok := RequestRole(w, o', Temporary);
    SameOperation(t, w.s);
    if !ok {
      RecoverLinked(w.s, o');
      return o', Failing;
    }
    MoveToCopying(w.s, o', now);
    o' := Moved(o', Copying, now);
    PlainRow(w.s, o');
    ok := TrySave(w, o', NoUpdate);
    return o', if ok then Parked else Failing;
  }

  method AdvanceMeasuring(w: World, o: Operation, now: int) returns (o': Operation, reply: Reply)
    requires w.Valid() && w.s.op == Some(o) && o.phase == Measuring
    modifies w
    ensures w.Valid() && old(w.acts) <= w.acts && o'.id == o.id
    ensures reply == Failing ==> Recoverable(w.s, o') && o'.phase in {Measuring, Copying}
    ensures reply != Finished && At(w, o, {Measuring, Copying})
    ensures w.quiet ==> Excused(old(w.s), w.s, Measuring, o', reply)
  {
    hide Inv, Run, Recoverable, RoleHindered, AtWork, Excused;
    var done;
    o', done := MeasureRole(w, o, Home, now);
    if done != Ok(true) {
      if w.quiet {
        RoleExcuses(old(w.s), w.s, Measuring, o', Home, done);
      }
      return o', if done.Err? then Failing else Parked;
    }
    ghost var home := o';
    o', done := MeasureRole(w, o', Temporary, now);
    if done != Ok(true) {
      if w.quiet {
        RoleExcuses(old(w.s), w.s, Measuring, o', Temporary, done);
      }
      return o', if done.Err? then Failing else Parked;
    }
    assert o'.Vol(Home).target.Some? ==> home.Vol(Home).used.Some?;
    ghost var t := w.s;
    o', reply := RequestDestinations(w, o', now);
    if w.quiet {
      ExcusedFrom(old(w.s), t, w.s, Measuring, o', reply);
    }
  }

  lemma FactsKeep(o: Operation, o': Operation, s: State)
    requires SameFacts(o, o')
    ensures forall q: Role :: o'.Vol(q) == o.Vol(q) && (CopyDone(s, o, q) == CopyDone(s, o', q))
  {
    forall q: Role ensures CopyDone(s, o, q) == CopyDone(s, o', q) {
      assert Accepted(s, o', q, Copy) == Accepted(s, o, q, Copy);
    }
  }

  /** The helper of a copy or verification has finished, with the measured usage. */
  method StageRole(w: World, o: Operation, r: Role, stage: Stage, now: int)
    returns (o': Operation, done: Outcome<bool>)
    requires w.Valid() && IsActive(w.s) && Linked(w.s, o) && stage in {Copy, Verify}
    requires StageOf(o.phase) == Some(stage) && o.Vol(r).target.Some?
    modifies w
    ensures w.Valid() && old(w.acts) <= w.acts && SameFacts(o, o')
    ensures done.Err? ==> Recoverable(w.s, o')
    ensures done.Ok? ==> IsActive(w.s) && Linked(w.s, o') && KeepsCopies(old(w.s), w.s, o', r)
    ensures done == Ok(true) ==>
              && (stage == Copy ==> CopyDone(w.s, o', r))
              && (stage == Verify ==> Accepted(w.s, o', r, Verify) && Twin(w.s, o'.Vol(r)))
    ensures w.s.op == Some(o') || w.s.op == old(w.s.op)
    ensures w.quiet ==>
              && (done.Err? ==> StageWrong(w.s, o', r, stage) || UsageChanged(w.s, o', r, stage))
              && (done == Ok(false) ==> AtWork(w.s, o', r, stage))
  {
    hide Inv, Run, Linked, Recoverable, KeepsCopies, CopyDone, Accepted, Twin, StageOf, IsActive, StageWrong, AtWork;
    var res;
    o', res := RunShrinkPod(w, o, r, stage, now);
    if res.Err? {
      return o', Err;
    }
    if res.value.None? {
      return o', Ok(false);
    }
    if o'.Vol(r).used != res.value {
      RecoverLinked(w.s, o');
      return o', Err;
    }
    return o', Ok(true);
  }

  method CopyRole(w: World, o: Operation, r: Role, now: int) returns (o': Operation, done: Outcome<bool>)
    requires w.Valid() && IsActive(w.s) && Linked(w.s, o) && o.phase == Copying
    modifies w
    ensures w.Valid() && old(w.acts) <= w.acts && SameFacts(o, o')
    ensures done.Err? ==> Recoverable(w.s, o')
    ensures done.Ok? ==> IsActive(w.s) && Linked(w.s, o')
    ensures done.Ok? ==> forall q: Role :: q != r && CopyDone(old(w.s), o, q) ==> CopyDone(w.s, o', q)
    ensures done == Ok(true) && o.Vol(r).target.Some? ==> CopyDone(w.s, o', r)
    ensures At(w, o, {Copying})
    ensures w.quiet ==>
              && (done.Err? ==> RoleHindered(w.s, Copying, o', r)) && (done == Ok(false) ==> AtWork(w.s, o', r, Copy))
  {
    hide Inv, Run, Linked, Recoverable, CopyDone, Twin, Accepted, StageWrong, UsageChanged, AtWork;
    LinkedSame(w.s, o);
    if o.Vol(r).target.None? {
      return o, Ok(true);
    }
    o', done := StageRole(w, o, r, Copy, now);
    FactsKeep(o, o', old(w.s));
  }

  method AdvanceCopying(w: World, o: Operation, now: int) returns (o': Operation, reply: Reply)
    requires w.Valid() && w.s.op == Some(o) && o.phase == Copying
    modifies w
    ensures w.Valid() && old(w.acts) <= w.acts && o'.id == o.id
    ensures reply == Failing ==> Recoverable(w.s, o') && o'.phase in {Copying, Verifying}
    ensures reply != Finished && At(w, o, {Copying, Verifying})
    ensures w.quiet ==> Excused(old(w.s), w.s, Copying, o', reply)
  {
    hide Inv, Run, Linked, Recoverable, CopyDone, CanSave, RoleHindered, AtWork;
    Start(w, o);
    var done;
    o', done := CopyRole(w, o, Home, now);
    if done != Ok(true) {
      if w.quiet {
        RoleExcuses(old(w.s), w.s, Copying, o', Home, done);
      }
      return o', if done.Err? then Failing else Parked;
    }
    o', done := CopyRole(w, o', Temporary, now);
    if done != Ok(true) {
      if w.quiet {
        RoleExcuses(old(w.s), w.s, Copying, o', Temporary, done);
      }
      return o', if done.Err? then Failing else Parked;
    }
    MoveToVerifying(w.s, o', now);
    LinkedSame(w.s, o');
    o' := Moved(o', Verifying, now);
    PlainRow(w.s, o');
    var ok := TrySave(w, o', NoUpdate);
    return o', if ok then Parked else Failing;
  }

  method VerifyRole(w: World, o: Operation, r: Role, now: int) returns (o': Operation, done: Outcome<bool>)
    requires w.Valid() && IsActive(w.s) && Linked(w.s, o) && o.phase == Verifying
    modifies w
    ensures w.Valid() && old(w.acts) <= w.acts && o'.id == o.id && o'.phase == Verifying
    ensures done.Err? ==> Recoverable(w.s, o')
    ensures done.Ok? ==> IsActive(w.s) && Linked(w.s, o')
    ensures forall q: Role :: o'.Vol(q).target == o.Vol(q).target && (o.Vol(q).verified ==> o'.Vol(q).verified)
    ensures done == Ok(true) && o.Vol(r).target.Some? ==> o'.Vol(r).verified
    ensures At(w, o, {Verifying})
    ensures w.quiet ==>
              && (done.Err? ==> RoleHindered(w.s, Verifying, o', r))
              && (done == Ok(false) ==> AtWork(w.s, o', r, Verify))
  {
    hide Inv, Run, Linked, Recoverable, CopyDone, Twin, Accepted, Between, KeepsCopies, Identifies, StageWrong,
         UsageChanged, AtWork, Unidentified;
    LinkedSame(w.s, o);
    if o.Vol(r).target.None? {
      return o, Ok(true);
    }
    o', done := StageRole(w, o, r, Verify, now);
    FactsSame(o, o');
    if done != Ok(true) {
      return;
    }
    LinkedSame(w.s, o');
    if o'.Vol(r).destination.None? {
      RecoverLinked(w.s, o');
      return o', Err;
    }
    ghost var t := w.s;
    var i := VolumeIdentity(w, o'.Vol(r).destination.value);
    AcceptedAfter(t, w.s, o', r, Verify);
    TwinAfter(t, w.s, o', r);
    LinkedAfter(t, w.s, o');
    BetweenUnsaved(t, w.s);
    if i.Err? {
      RecoverLinked(w.s, o');
      return o', Err;
    }
    RoleVerified(w.s, o', r, i.value);
    return Verified(o', r, i.value), Ok(true);
  }

  lemma AcceptedAfter(s: State, s': State, o: Operation, r: Role, stage: Stage)
    requires Between(s, s') && Accepted(s, o, r, stage)
    ensures Accepted(s', o, r, stage)
  {
    BetweenParts(s, s');
  }

  method AdvanceVerifying(w: World, o: Operation, now: int) returns (o': Operation, reply: Reply)
    requires w.Valid() && w.s.op == Some(o) && o.phase == Verifying
    modifies w
    ensures w.Valid() && old(w.acts) <= w.acts && o'.id == o.id
    ensures reply == Failing ==> Recoverable(w.s, o') && o'.phase in {Verifying, Switching}
    ensures reply != Finished && At(w, o, {Verifying, Switching})
    ensures w.quiet ==> Excused(old(w.s), w.s, Verifying, o', reply)
  {
    hide Inv, Run, Linked, Recoverable, CanSave, RoleHindered, AtWork;
    Start(w, o);
    var done;
    o', done := VerifyRole(w, o, Home, now);
    if done != Ok(true) {
      if w.quiet {
        RoleExcuses(old(w.s), w.s, Verifying, o', Home, done);
      }
      return o', if done.Err? then Failing else Parked;
    }
    ghost var home := o';
    o', done := VerifyRole(w, o', Temporary, now);
    if done != Ok(true) {
      if w.quiet {
        RoleExcuses(old(w.s), w.s, Verifying, o', Temporary, done);
      }
      return o', if done.Err? then Failing else Parked;
    }
    assert o'.Vol(Home).target.Some? ==> home.Vol(Home).verified;
    MoveToSwitching(w.s, o', now);
    LinkedSame(w.s, o');
    o' := Moved(o', Switching, now);
    PlainRow(w.s, o');
    var ok := TrySave(w, o', NoUpdate);
    return o', if ok then Parked else Failing;
  }

  /** Helpers gone, then the workload offline; the order matters to the second answer. */
  method ClearAndStop(w: World, o: Operation) returns (r: Outcome<bool>)
    requires w.Valid() && w.s.op == Some(o) && o.phase in {Switching, RollingBack}
    modifies w
    ensures w.Valid() && old(w.acts) <= w.acts && Unsaved(old(w.s), w.s) && Fewer(old(w.s), w.s)
    ensures r == Ok(true) ==> w.s.helpers == map[] && Offline(w.s) && RollbackDone(w.s, o)
    ensures w.quiet ==>
              && (r == Ok(false) ==> Leaving(w.s) || StillStopping(w.s))
              && (r.Err? ==> Replaced(w.s, o) || CannotStop(w.s, o))
  {
    hide Inv, Run, Unsaved, Fewer, Offline, SourceHeld, ForeignMount, HelpersRely, RollbackDone, Leaving,
         StillStopping, Replaced, CannotStop;
    r := RemoveHelpers(w, o);
    SameOperation(old(w.s), w.s);
    if r != Ok(true) {
      return;
    }
    ghost var t := w.s;
    r := StopWorkload(w, o);
    UnsavedTrans(old(w.s), t, w.s);
    FewerTrans(old(w.s), t, w.s);
    NoHelpersStay(t, w.s);
    if r == Ok(true) {
      StoppedIsDone(w.s, o);
    }
  }

  lemma SwitchRow(ws: Workspace, o: Operation)
    ensures ApplyUpdate(ws, o, Switch).Some? <==> VerifiedDestination(o.home) && VerifiedDestination(o.temporary)
  {
    hide VerifiedDestination;
  }

  method AdvanceSwitching(w: World, o: Operation, now: int) returns (o': Operation, reply: Reply)
    requires w.Valid() && w.s.op == Some(o) && o.phase == Switching
    modifies w
    ensures w.Valid() && old(w.acts) <= w.acts && o'.id == o.id
    ensures reply == Failing ==> Recoverable(w.s, o') && o'.phase in {Switching, Resuming}
    ensures reply != Finished && At(w, o, {Switching, Resuming})
    ensures w.quiet ==> Excused(old(w.s), w.s, Switching, o', reply)
  {
    hide Inv, Run, Linked, Recoverable, CanSave, Unsaved, Offline, SourceHeld, Fewer, Excused, VerifiedDestination,
         ApplyUpdate, SameCluster, RollbackDone, Leaving, StillStopping, Replaced, CannotStop;
    Start(w, o);
    var clear := ClearAndStop(w, o);
    UnsavedLinked(old(w.s), w.s, o);
    SameOperation(old(w.s), w.s);
    if clear != Ok(true) {
      RecoverLinked(w.s, o);
      if w.quiet {
        ClearExcuses(old(w.s), w.s, Switching, o, clear);
      }
      return o, if clear.Err? then Failing else Parked;
    }
    MoveToResuming(w.s, o, now);
    o' := AsSwitched(o, now);
    SwitchRow(w.s.ws, o');
    var ok := TrySave(w, o', Switch);
    if ok {
      MovedOn(old(w.s), w.s, Switching, o');
    } else if w.quiet {
      UnverifiedExcuses(old(w.s), w.s, o');
    }
    return o', if ok then Parked else Failing;
  }

  lemma ResumeActs(s: State, retain: bool, st: WorkspaceState)
    requires IsActive(s) && s.op.value.phase == Resuming
    ensures HandlerEnabled(ResumeWorkload(retain), s) && HandlerEnabled(RecordState(st), s)
    ensures HandlerEffect(ResumeWorkload(retain), s).op == s.op && HandlerEffect(RecordState(st), s).op == s.op
    ensures HandlerEffect(RecordState(st), s).ws == s.ws.(state := st)
    ensures HandlerEffect(ResumeWorkload(retain), s).ws == s.ws
  {
  }

  /**
   `reconcile_workspace` while resuming: apply the bound volumes, observe, record.
   Undisturbed, a workspace that was told to start is found ready.
   */
  method Reconcile(w: World, o: Operation) returns (reply: Reply)
    requires w.Valid() && w.s.op == Some(o) && o.phase == Resuming
    modifies w
    ensures w.Valid() && old(w.acts) <= w.acts && w.s.op == Some(o)
    ensures w.quiet ==> reply == Finished && (o.resume ==> w.s.ws.state == Ready)
  {
    hide Inv, Run, Between, HandlerEnabled, HandlerEffect, KeepsLinks, Unsaved;
    w.Interfere();
    BetweenUnsaved(old(w.s), w.s);
    SameOperation(old(w.s), w.s);
    var fails := w.Fails();
    if fails {
      return Failing;
    }
    var retain: bool := *;
    var st: WorkspaceState := *;
    if w.quiet && o.resume {
      st := Ready;
    }
    ResumeActs(w.s, retain, st);
    w.Do(ResumeWorkload(retain));
    ghost var t := w.s;
    w.Interfere();
    BetweenUnsaved(t, w.s);
    SameOperation(t, w.s);
    fails := w.Fails();
    if fails {
      return Parked;
    }
    ResumeActs(w.s, retain, st);
    w.Do(RecordState(st));
    return Finished;
  }

  method AdvanceResuming(w: World, o: Operation, now: int) returns (o': Operation, reply: Reply)
    requires w.Valid() && w.s.op == Some(o) && o.phase == Resuming
    modifies w
    ensures w.Valid() && old(w.acts) <= w.acts && o'.id == o.id
    ensures reply == Failing ==> Recoverable(w.s, o') && o'.phase in {Resuming, Completed, Reclaiming}
    ensures At(w, o, {Resuming, if o.reclaimSource then Reclaiming else Completed})
    ensures reply == Finished ==> At(w, o, {Completed})
    ensures w.quiet ==> Excused(old(w.s), w.s, Resuming, o', reply)
  {
    hide Inv, Run, Linked, Recoverable, CanSave, Excused, AsRecovered;
    RecoveredPhase(o, now);
    if o.resume && w.s.ws.state != Ready {
      o', reply := ComeBack(w, o, now);
      return;
    }
    if !o.resume {
      reply := Reconcile(w, o);
      Start(w, o);
      if reply != Finished {
        RecoverLinked(w.s, o);
        return o, reply;
      }
    }
    o', reply := SaveRecovered(w, o, now);
    if reply == Parked {
      MovedOn(old(w.s), w.s, Resuming, o');
    } else if reply == Finished {
      FinishedExcuses(old(w.s), w.s, Resuming, o');
    }
  }

  lemma RecoveredPhase(o: Operation, now: int)
    ensures AsRecovered(o, now).id == o.id
    ensures AsRecovered(o, now).phase == if o.reclaimSource then Reclaiming else Completed
  {
  }

  /** A workspace that is to be started again: told to start, or looked after until it is ready. */
  method ComeBack(w: World, o: Operation, now: int) returns (o': Operation, reply: Reply)
    requires w.Valid() && w.s.op == Some(o) && o.phase == Resuming && o.resume && w.s.ws.state != Ready
    modifies w
    ensures w.Valid() && old(w.acts) <= w.acts && o'.id == o.id && o'.phase == Resuming
    ensures reply == Failing ==> Recoverable(w.s, o')
    ensures reply != Finished && At(w, o, {Resuming})
    ensures w.quiet ==> Excused(old(w.s), w.s, Resuming, o', reply)
  {
    hide Inv, Run, Linked, Recoverable, CanSave, SameCluster, Excused, ApplyUpdate;
    Start(w, o);
    if w.s.ws.state == Stopped {
      MoveToStarting(w.s, o, now);
      o' := o.(updatedAt := now);
      StartingRow(w.s.ws, o');
      var ok := TrySave(w, o', ToStarting);
      if w.quiet {
        BackExcuses(old(w.s), w.s, o');
      }
      return o', if ok then Parked else Failing;
    }
    reply := Reconcile(w, o);
    Start(w, o);
    RecoverLinked(w.s, o);
    if w.quiet {
      BackExcuses(old(w.s), w.s, o);
    }
    return o, if reply == Failing then Failing else Parked;
  }

  lemma StartingRow(ws: Workspace, o: Operation)
    ensures ApplyUpdate(ws, o, ToStarting) == Some(ws.(state := Starting))
  {
  }

  method SaveRecovered(w: World, o: Operation, now: int) returns (o': Operation, reply: Reply)
    requires w.Valid() && w.s.op == Some(o) && o.phase == Resuming && (o.resume ==> w.s.ws.state == Ready)
    modifies w
    ensures w.Valid() && old(w.acts) <= w.acts && o' == AsRecovered(o, now)
    ensures w.s.op == Some(o) || w.s.op == Some(o')
    ensures reply == Failing ==> Recoverable(w.s, o')
    ensures reply == Parked ==> w.s.op == Some(o') && o'.phase == Reclaiming
    ensures reply == Finished ==> w.s.op == Some(o') && o'.phase == Completed
    ensures w.quiet ==> reply != Failing
  {
    hide Inv, Run, Linked, Recoverable, CanSave, SameCluster, ApplyUpdate;
    Start(w, o);
    MoveToRecovered(w.s, o, now);
    o' := AsRecovered(o, now);
    PlainRow(w.s, o');
    var ok := TrySave(w, o', NoUpdate);
    return o', if !ok then Failing else if o'.phase == Reclaiming then Parked else Finished;
  }

  lemma MissingStays(s: State, s': State, o: Operation)
    requires Fewer(s, s') && s.workload.Some? && Missing(s, o)
    ensures !RollbackDone(s', o)
  {
    var r: Role :| o.Vol(r).source.Some? && o.Vol(r).source.value.name !in s.claims;
    assert !Solid(s', o.Vol(r).source.value);
  }

  /** Rolling back ends in Failed, but never while a StatefulSet remains and a source is missing. */
  method AdvanceRollingBack(w: World, o: Operation, now: int) returns (o': Operation, reply: Reply)
    requires w.Valid() && w.s.op == Some(o) && o.phase == RollingBack
    modifies w
    ensures w.Valid() && old(w.acts) <= w.acts && o'.id == o.id
    ensures reply == Failing ==> Recoverable(w.s, o') && o'.phase in {RollingBack, Failed}
    ensures At(w, o, {RollingBack, Failed})
    ensures reply == Finished ==> At(w, o, {Failed}) && w.s.helpers == map[]
    ensures old(w.s.workload.Some? && Missing(w.s, o)) ==> w.s.op == Some(o) && o' == o && reply != Finished
    ensures w.quiet ==> Excused(old(w.s), w.s, RollingBack, o', reply)
  {
    hide Inv, Run, Linked, Recoverable, CanSave, Unsaved, Offline, SourceHeld, Missing, Fewer, RollbackDone, Excused,
         Leaving, StillStopping, Replaced, CannotStop;
    Start(w, o);
    var clear := ClearAndStop(w, o);
    UnsavedLinked(old(w.s), w.s, o);
    SameOperation(old(w.s), w.s);
    if clear != Ok(true) {
      RecoverLinked(w.s, o);
      if w.quiet {
        ClearExcuses(old(w.s), w.s, RollingBack, o, clear);
      }
      return o, if clear.Err? then Failing else Parked;
    }
    if old(w.s.workload.Some? && Missing(w.s, o)) {
      MissingStays(old(w.s), w.s, o);
    }
    o', reply := SaveFailed(w, o, now);
    if reply == Finished {
      FinishedExcuses(old(w.s), w.s, RollingBack, o');
    }
  }

  lemma StoppedIsDone(s: State, o: Operation)
    requires Offline(s) && (s.workload.Some? ==> forall q: Role :: SourceHeld(s, o, q))
    ensures RollbackDone(s, o)
  {
    forall r: Role | s.workload.Some? && o.Vol(r).source.Some?
      ensures Solid(s, o.Vol(r).source.value) && Unownable(s, o.Vol(r).source.value.name)
    {
      assert SourceHeld(s, o, r);
    }
  }

  method SaveFailed(w: World, o: Operation, now: int) returns (o': Operation, reply: Reply)
    requires w.Valid() && w.s.op == Some(o) && o.phase == RollingBack && w.s.helpers == map[]
    requires RollbackDone(w.s, o)
    modifies w
    ensures w.Valid() && old(w.acts) <= w.acts && o' == Moved(o, Failed, now)
    ensures reply == Failing ==> Recoverable(w.s, o')
    ensures w.s.op == Some(o) || w.s.op == Some(o')
    ensures reply in {Finished, Failing} && (reply == Finished ==> w.s.op == Some(o') && w.s.helpers == map[])
    ensures w.quiet ==> reply == Finished
  {
    hide Inv, Run, Linked, Recoverable, CanSave, RollbackDone, SameCluster;
    Start(w, o);
    var update := if o.switched then ToStopped else Rollback;
    MoveToFailed(w.s, o, now, update);
    o' := Moved(o, Failed, now);
    var ok := TrySave(w, o', update);
    if ok {
      FailedHasNone(w.s, o');
      return o', Finished;
    }
    return o', Failing;
  }

  lemma FailedHasNone(s: State, o: Operation)
    requires Linked(s, o) && o.phase == Failed
    ensures s.helpers == map[]
  {
  }

  /**
   A failure in Reclaiming leaves the phase alone, except one: when the sources are
   all gone and only the last save failed, the record in memory already says Reclaimed.
   */
  method AdvanceReclaiming(w: World, o: Operation, now: int) returns (o': Operation, reply: Reply)
    requires w.Valid() && w.s.op == Some(o) && o.phase == Reclaiming
    modifies w
    ensures w.Valid() && old(w.acts) <= w.acts && o'.id == o.id
    ensures reply == Failing ==> Recoverable(w.s, o') && o'.phase in {Reclaiming, Reclaimed}
    ensures reply == Failing && o'.phase == Reclaimed ==> Emptied(w.s, o, o')
    ensures reply == Failing && o'.phase == Reclaiming ==> w.s.op == Some(o)
    ensures At(w, o, {Reclaiming, Reclaimed})
    ensures reply == Finished ==> At(w, o, {Reclaimed}) && Emptied(w.s, o, o')
    ensures w.quiet ==> Excused(old(w.s), w.s, Reclaiming, o', reply)
  {
    hide Inv, Run, Linked, Recoverable, CanSave, SourcesGone, Emptied, Excused, AsReclaimed, OpOk;
    ReclaimedRecord(o, now);
    if o.resume && w.s.ws.state != Ready {
      Start(w, o);
      RecoverLinked(w.s, o);
      NotReadyExcuses(w.s, w.s, o);
      return o, Failing;
    }
    o', reply := ReclaimAll(w, o, now);
  }

  lemma ReclaimedRecord(o: Operation, now: int)
    ensures AsReclaimed(o, now).phase == Reclaimed && AsReclaimed(o, now).id == o.id
  {
  }

  method ReclaimAll(w: World, o: Operation, now: int) returns (o': Operation, reply: Reply)
    requires w.Valid() && Reclaims(w.s, o)
    modifies w
    ensures w.Valid() && old(w.acts) <= w.acts && (o' == o || (o' == AsReclaimed(o, now) && Emptied(w.s, o, o')))
    ensures reply == Failing ==> Recoverable(w.s, o')
    ensures w.s.op == Some(o) || w.s.op == Some(o')
    ensures reply == Finished ==> w.s.op == Some(o') && o' == AsReclaimed(o, now)
    ensures w.quiet ==> Excused(old(w.s), w.s, Reclaiming, o', reply)
  {
    hide Inv, Run, Linked, Recoverable, CanSave, Unsaved, SourcesGone, Emptied, CannotReclaim, Advanced, Excused,
         AsReclaimed;
    Start(w, o);
    var done := ReclaimSources(w, o);
    UnsavedLinked(old(w.s), w.s, o);
    SameOperation(old(w.s), w.s);
    if done != Ok(true) {
      RecoverLinked(w.s, o);
      if w.quiet {
        ReclaimExcuses(old(w.s), w.s, o, done);
      }
      return o, if done.Err? then Failing else Parked;
    }
    o', reply := SaveReclaimed(w, o, now);
    if reply == Finished {
      FinishedExcuses(old(w.s), w.s, Reclaiming, o');
    }
  }

  /** Every targeted source of the operation is gone, and the record says nothing else. */
  ghost predicate Emptied(s: State, o: Operation, o': Operation) {
    o'.home == o.home && o'.temporary == o.temporary && Known(s, o') && SourcesGone(s, o')
  }

  lemma EmptiedStays(s: State, mid: State, s': State, o: Operation, o': Operation)
    requires Between(s, mid) && Emptied(s, o, o') && SameCluster(mid, s')
    ensures Emptied(s', o, o')
  {
    hide Inv, KeepsLinks;
    RelyRecords(s, mid, o');
    assert forall r: Role :: SourceGone(s', o'.Vol(r)) == SourceGone(mid, o'.Vol(r));
  }

  lemma NowEmptied(s: State, o: Operation, o': Operation)
    requires Inv(s) && s.op == Some(o) && SourcesGone(s, o)
    requires o'.id == o.id && o'.home == o.home && o'.temporary == o.temporary
    ensures Emptied(s, o, o')
  {
    assert Known(s, o);
    assert forall r: Role :: o'.Vol(r) == o.Vol(r);
  }

  lemma EmptiedGone(s: State, o: Operation, o': Operation)
    requires Emptied(s, o, o')
    ensures SourcesGone(s, o)
  {
    assert forall r: Role :: o'.Vol(r) == o.Vol(r);
  }

  method SaveReclaimed(w: World, o: Operation, now: int) returns (o': Operation, reply: Reply)
    requires w.Valid() && w.s.op == Some(o) && o.phase == Reclaiming && SourcesGone(w.s, o)
    modifies w
    ensures w.Valid() && old(w.acts) <= w.acts && Emptied(w.s, o, o') && o' == AsReclaimed(o, now)
    ensures reply in {Finished, Failing} && (reply == Finished ==> w.s.op == Some(o'))
    ensures reply == Failing ==> Recoverable(w.s, o')
    ensures w.s.op == Some(o') || w.s.op == Some(o)
    ensures w.quiet ==> reply == Finished
  {
    hide Inv, Run, Linked, Recoverable, CanSave, Between, SourcesGone, Emptied;
    Start(w, o);
    MoveToReclaimed(w.s, o, now);
    o' := AsReclaimed(o, now);
    NowEmptied(w.s, o, o');
    ghost var mid;
    var ok;
    ok, mid := w.Commit(o', NoUpdate);
    BetweenInv(old(w.s), mid);
    BetweenUnsaved(old(w.s), mid);
    EmptiedStays(old(w.s), mid, w.s, o, o');
    if !ok {
      RecoverSave(w.s, mid, o', NoUpdate);
    }
    reply := if ok then Finished else Failing;
  }

  // ------------------------------------------------------------------------ the job

  lemma PlainRow(s: State, o: Operation)
    ensures ApplyUpdate(s.ws, o, NoUpdate).Some? && Saved(s, o, NoUpdate).ws == s.ws
    ensures Saved(s, o, NoUpdate).op == Some(o)
  {
  }

  /** `finish_preflight_failure`: nothing but helper Pods has to be undone. */
  method FinishPreflightFailure(w: World, o: Operation, now: int) returns (reply: Reply)
    requires w.Valid() && w.s.op == Some(o) && o.phase == Queued && o.error
    modifies w
    ensures w.Valid() && old(w.acts) <= w.acts && At(w, o, {Queued, Failed})
    ensures reply == Finished ==> At(w, o, {Failed}) && w.s.helpers == map[]
    ensures w.s.ws == old(w.s.ws)
    ensures w.quiet ==> (reply == Parked ==> Leaving(w.s)) && (reply == Failing ==> Replaced(w.s, o))
  {
    hide Inv, Run, Linked, CanSave, Between, Unsaved, Fewer, Saved, ApplyUpdate, Leaving, Replaced;
    Start(w, o);
    var clear := RemoveHelpers(w, o);
    UnsavedLinked(old(w.s), w.s, o);
    SameOperation(old(w.s), w.s);
    if clear != Ok(true) {
      NotYes(clear);
      return if clear.Err? then Failing else Parked;
    }
    reply := SavePreflightFailure(w, o, now);
  }

  method SavePreflightFailure(w: World, o: Operation, now: int) returns (reply: Reply)
    requires w.Valid() && w.s.op == Some(o) && o.phase == Queued && o.error && w.s.helpers == map[]
    modifies w
    ensures w.Valid() && old(w.acts) <= w.acts && At(w, o, {Queued, Failed})
    ensures reply == Finished ==> At(w, o, {Failed}) && w.s.helpers == map[]
    ensures w.s.ws == old(w.s.ws) && reply != Parked && (w.quiet ==> reply == Finished)
  {
    hide Inv, Run, Linked, CanSave, Between, Unsaved, Saved, ApplyUpdate;
    Start(w, o);
    ghost var mid;
    var ok;
    MoveToFailed(w.s, o, now, NoUpdate);
    ok, mid := w.Commit(Moved(o, Failed, now), NoUpdate);
    BetweenUnsaved(old(w.s), mid);
    SameOperation(old(w.s), mid);
    PlainRow(mid, Moved(o, Failed, now));
    if ok {
      FailedHasNone(w.s, Moved(o, Failed, now));
    }
    return if ok then Finished else Failing;
  }

  /** Where a failed call sends the record it had in memory, and with which update. */
  function FailureSave(o: Operation, now: int): (Operation, Update) {
    if o.phase == Reclaiming then (o.(phase := Completed, error := true, updatedAt := now), NoUpdate)
    else if o.phase == Queued then (o.(error := true, updatedAt := now), NoUpdate)
    else (o.(phase := RollingBack, error := true, updatedAt := now), ToStopping)
  }

  lemma FailureCanSave(s: State, o: Operation, now: int)
    requires IsActive(s) && Recoverable(s, o) && o.phase != RollingBack
    ensures CanSave(s, FailureSave(o, now).0, FailureSave(o, now).1)
  {
    hide CanSave, Linked;
    if o.phase == Reclaiming {
      CanSaveIgnores(s, o.(phase := Completed, error := true), FailureSave(o, now).0, NoUpdate);
    } else if o.phase == Queued {
      LinkedCanSave(s, o);
      CanSaveIgnores(s, o, FailureSave(o, now).0, NoUpdate);
    } else {
      CanSaveIgnores(s, AsRollback(o), FailureSave(o, now).0, ToStopping);
    }
  }

  lemma FailureRow(ws: Workspace, o: Operation, now: int)
    ensures ApplyUpdate(ws, FailureSave(o, now).0, FailureSave(o, now).1).Some?
  {
  }

  /** The error arm of the handler; undisturbed, what it saves is saved. */
  method RecordFailure(w: World, o: Operation, now: int) returns (reply: Reply)
    requires w.Valid() && Recoverable(w.s, o) && o.phase != RollingBack
    requires w.s.op.Some? && w.s.op.value.id == o.id
    modifies w
    ensures w.Valid() && old(w.acts) <= w.acts
    ensures w.s.op == old(w.s.op) || (o.phase == Queued && At(w, o, {Queued, Failed}))
            || w.s.op == Some(FailureSave(o, now).0)
    ensures reply == Finished ==> At(w, o, {Completed, Failed})
    ensures reply == Parked && o.phase != Queued ==> At(w, o, {RollingBack})
    ensures o.phase != Queued ==> forall p :: Emptied(old(w.s), p, o) ==> Emptied(w.s, p, o)
    ensures w.quiet && IsActive(old(w.s)) && o.phase != Queued ==> w.s.op == Some(FailureSave(o, now).0)
  {
    hide Inv, Run, Linked, CanSave, Between, Recoverable, IsActive, Emptied, ApplyUpdate;
    if !IsActive(w.s) {
      // saving an operation that is no longer active is refused
      return Failing;
    }
    FailureCanSave(w.s, o, now);
    FailureRow(w.s.ws, o, now);
    var next := FailureSave(o, now);
    ghost var mid;
    var ok;
    ok, mid := w.Commit(next.0, next.1);
    BetweenUnsaved(old(w.s), mid);
    forall p | Emptied(old(w.s), p, o) ensures Emptied(w.s, p, o) {
      EmptiedStays(old(w.s), mid, w.s, p, o);
    }
    if !ok {
      return Failing;
    }
    if o.phase == Queued {
      reply := FinishPreflightFailure(w, next.0, now);
      return;
    }
    return if o.phase == Reclaiming then Finished else Parked;
  }

  method Advance(w: World, o: Operation, now: int) returns (o': Operation, reply: Reply)
    requires w.Valid() && IsActive(w.s) && w.s.op == Some(o)
    modifies w
    ensures w.Valid() && old(w.acts) <= w.acts && o'.id == o.id
    ensures At(w, o, Reaches(o.phase)) && (reply == Failing ==> o'.phase in Reaches(o.phase) && Recoverable(w.s, o'))
    ensures reply == Finished ==> !w.s.op.value.phase.Active()
    ensures o.phase == Reclaiming && reply == Failing ==>
              if o'.phase == Reclaimed then Emptied(w.s, o, o') else w.s.op == Some(o)
    ensures old(w.s.workload.Some? && Missing(w.s, o)) && o.phase == RollingBack ==>
              w.s.op == Some(o) && o' == o && reply != Finished
    ensures w.quiet ==> Excused(old(w.s), w.s, o.phase, o', reply)
  {
    hide Inv, Run, Recoverable, Emptied, Missing, Excused;
    match o.phase
    case Queued => o', reply := AdvanceQueued(w, o, now);
    case Stopping => o', reply := AdvanceStopping(w, o, now);
    case Measuring => o', reply := AdvanceMeasuring(w, o, now);
    case Copying => o', reply := AdvanceCopying(w, o, now);
    case Verifying => o', reply := AdvanceVerifying(w, o, now);
    case Switching => o', reply := AdvanceSwitching(w, o, now);
    case Resuming => o', reply := AdvanceResuming(w, o, now);
    case RollingBack => o', reply := AdvanceRollingBack(w, o, now);
    case Reclaiming => o', reply := AdvanceReclaiming(w, o, now);
  }

  /** The phases one step can save, failures apart. */
  function Reaches(p: Phase): set<Phase> {
    match p
    case Queued => {Queued, Stopping}
    case Stopping => {Stopping, Measuring}
    case Measuring => {Measuring, Copying}
    case Copying => {Copying, Verifying}
    case Verifying => {Verifying, Switching}
    case Switching => {Switching, Resuming}
    case Resuming => {Resuming, Completed, Reclaiming}
    case RollingBack => {RollingBack, Failed}
    case Reclaiming => {Reclaiming, Reclaimed}
    case _ => {p}
  }

  /** The phases one handler call can leave saved, failures and lost replies included. */
  function Leads(p: Phase): set<Phase> {
    match p
    case Queued => {Queued, Stopping, Failed, RollingBack}
    case RollingBack => {RollingBack, Failed}
    case Resuming => {Resuming, Completed, Reclaiming, RollingBack}
    case Reclaiming => {Reclaiming, Completed, Reclaimed, RollingBack}
    case _ => Reaches(p) + {RollingBack}
  }

  /** A phase is given a day, except for rolling back. */
  predicate Expired(o: Operation, now: int) { now - o.updatedAt > 86_400 && o.phase != RollingBack }

  /** The step taken for an active operation, or the failure its deadline makes of it. */
  method AdvanceOrExpire(w: World, o: Operation, now: int) returns (o': Operation, reply: Reply)
    requires w.Valid() && IsActive(w.s) && w.s.op == Some(o)
    modifies w
    ensures w.Valid() && old(w.acts) <= w.acts && o'.id == o.id
    ensures At(w, o, Reaches(o.phase)) && (reply == Failing ==> o'.phase in Reaches(o.phase) && Recoverable(w.s, o'))
    ensures reply == Finished ==> !w.s.op.value.phase.Active()
    ensures o.phase == Reclaiming && reply == Failing ==>
              if o'.phase == Reclaimed then Emptied(w.s, o, o') else w.s.op == Some(o)
    ensures old(w.s.workload.Some? && Missing(w.s, o)) && o.phase == RollingBack ==>
              w.s.op == Some(o) && o' == o && reply != Finished
    ensures Expired(o, now) ==> reply == Failing && o' == o && w.s == old(w.s)
    ensures w.quiet && !Expired(o, now) ==> Excused(old(w.s), w.s, o.phase, o', reply)
  {
    hide Inv, Run, Recoverable, Emptied, Missing, Linked, Excused;
    if Expired(o, now) {
      Start(w, o);
      RecoverLinked(w.s, o);
      return o, Failing;
    }
    o', reply := Advance(w, o, now);
  }

  /** What the step of a call came to: the state and the record it left, and its reply. */
  datatype Taken = Taken(at: State, record: Operation, reply: Reply)

  /**
   `handle_storage_shrink`. Whatever fails, the operation moves only along `Leads`;
   a reclamation that fails goes back to Completed, and to RollingBack only when
   every source was already gone; and a rollback that finds a source missing beside
   a StatefulSet saves nothing. When nobody disturbs the call, it leaves the phase
   as it is only while something is still to come, and its step fails only after a
   day or if something is in the way; then the error arm's record is saved.
   */
  method HandleStorageShrink(w: World, job: nat, now: int) returns (reply: Reply, ghost step: Taken)
    requires w.Valid()
    modifies w
    ensures w.Valid() && old(w.acts) <= w.acts
    ensures !(IsActive(old(w.s)) && old(w.s).op.value.id == job) ==> w.s == old(w.s) && reply == Finished
    ensures IsActive(old(w.s)) && old(w.s).op.value.id == job ==>
              var o := old(w.s).op.value;
              && At(w, o, Leads(o.phase))
              && (reply == Finished ==> !w.s.op.value.phase.Active())
              && (o.phase == Reclaiming && w.s.op.value.phase == RollingBack ==> SourcesGone(w.s, o))
              && (o.phase == RollingBack && old(w.s).workload.Some? && Missing(old(w.s), o) ==> w.s.op == Some(o))
    ensures w.quiet && IsActive(old(w.s)) && old(w.s).op.value.id == job ==>
              var o := old(w.s).op.value;
              if o.phase == Queued && o.error then
                (reply == Parked ==> Leaving(w.s)) && (reply == Failing ==> Replaced(w.s, o))
              else
                && (now - o.updatedAt > 86_400 && o.phase != RollingBack ==> step.reply == Failing)
                && (now - o.updatedAt <= 86_400 || o.phase == RollingBack ==>
                      Excused(old(w.s), step.at, o.phase, step.record, step.reply))
                && (step.reply != Failing ==> w.s == step.at && reply == step.reply)
                && (step.reply == Failing && IsActive(step.at) && step.record.phase !in {Queued, RollingBack} ==>
                      w.s.op == Some(FailureSave(step.record, now).0))
  {
    hide Inv, Run, Recoverable, Emptied, Missing, SourcesGone, FailureSave, Excused, Leaving, Replaced;
    step := *;
    if w.s.op.None? || !w.s.op.value.phase.Active() || w.s.op.value.id != job {
      return Finished, step;
    }
    var o := w.s.op.value;
    if o.phase == Queued && o.error {
      reply := FinishPreflightFailure(w, o, now);
      return;
    }
    var o';
    o', reply := AdvanceOrExpire(w, o, now);
    step := Taken(w.s, o', reply);
    if reply != Failing || o'.phase == RollingBack {
      return;
    }
    reply := RecordFailure(w, o', now);
    FailurePhase(o', now);
    if Emptied(w.s, o, o') {
      EmptiedGone(w.s, o, o');
    }
  }

  lemma FailurePhase(o: Operation, now: int)
    ensures var next := FailureSave(o, now).0;
            && next.id == o.id && next.home == o.home && next.temporary == o.temporary
            && next.phase == if o.phase == Reclaiming then Completed
                             else if o.phase == Queued then Queued else RollingBack
  {
  }

  /**
   The exception is real: from every state whose sources are all reclaimed, losing
   the one save of Reclaimed lets the handler save RollingBack, and from then on a
   source is missing.
   */
  lemma LostReclaimSave(s: State, o: Operation, now: int)
    requires Inv(s) && s.op == Some(o) && o.phase == Reclaiming && SourcesGone(s, o)
    requires o.home.target.Some? || o.temporary.target.Some?
    ensures var next := FailureSave(AsReclaimed(o, now), now).0;
            && next.phase == RollingBack
            && HandlerEnabled(Save(next, ToStopping), s)
            && Missing(Saved(s, next, ToStopping), next)
  {
    hide Inv, CanSave, Linked, Recoverable, Missing, Evidence;
    SelfLinked(s);
    MoveToReclaimed(s, o, now);
    RecoverNext(s, AsReclaimed(o, now), NoUpdate);
    FailureCanSave(s, AsReclaimed(o, now), now);
    var next := FailureSave(AsReclaimed(o, now), now).0;
    CanSaveEnabled(s, next, ToStopping);
    StillMissing(s, o, Saved(s, next, ToStopping), next);
  }

  /**
   Nor does consent always lead to Reclaiming: from every recovered operation that
   has it, losing the save of Reclaiming lets the error arm save Completed, where
   the sources wait for a confirmation.
   */
  lemma LostRecoverySave(s: State, o: Operation, now: int)
    requires Inv(s) && s.op == Some(o) && o.phase == Resuming && o.reclaimSource
    requires o.resume ==> s.ws.state == Ready
    ensures var next := FailureSave(AsRecovered(o, now), now).0;
            && next.phase == Completed && next.reclaimSource && next.error
            && HandlerEnabled(Save(next, NoUpdate), s)
            && ConfirmAllowed(next, s.ws.(state := if o.resume then Ready else Stopped))
  {
    hide Inv, CanSave, Linked, Recoverable, Evidence;
    SelfLinked(s);
    MoveToRecovered(s, o, now);
    RecoverNext(s, AsRecovered(o, now), NoUpdate);
    FailureCanSave(s, AsRecovered(o, now), now);
    CanSaveEnabled(s, FailureSave(AsRecovered(o, now), now).0, NoUpdate);
  }

  lemma CanSaveEnabled(s: State, o: Operation, u: Update)
    requires CanSave(s, o, u) && ApplyUpdate(s.ws, o, u).Some?
    ensures HandlerEnabled(Save(o, u), s)
  {
    hide Evidence, Keeps, CommitOk;
  }

  lemma StillMissing(s: State, o: Operation, s': State, o': Operation)
    requires SourcesGone(s, o) && (o.home.target.Some? || o.temporary.target.Some?)
    requires o'.home == o.home && o'.temporary == o.temporary && s'.claims == s.claims
    ensures Missing(s', o')
  {
    var r := if o.home.target.Some? then Home else Temporary;
    assert SourceGone(s, o.Vol(r)) && o'.Vol(r) == o.Vol(r);
  }

  // --------------------------------------------------------------- exhausted retries

  /** The record saved when the job's retries are exhausted. */
  function TerminalSave(o: Operation, now: int): (Operation, Update) {
    if o.phase == RollingBack then (o.(error := true, updatedAt := now), ToStopping)
    else FailureSave(o, now)
  }

  lemma TerminalCanSave(s: State, o: Operation, now: int)
    requires Inv(s) && IsActive(s) && s.op == Some(o)
    ensures CanSave(s, TerminalSave(o, now).0, TerminalSave(o, now).1)
  {
    hide Inv, Linked, Recoverable, CanSave;
    SelfLinked(s);
    if o.phase == RollingBack {
      AgainCanSave(s, o);
      CanSaveIgnores(s, o, TerminalSave(o, now).0, ToStopping);
    } else {
      RecoverLinked(s, o);
      FailureCanSave(s, o, now);
    }
  }

  lemma AgainCanSave(s: State, o: Operation)
    requires Linked(s, o) && o.phase == RollingBack
    ensures CanSave(s, o, ToStopping)
  {
    hide Evidence, CommitOk, Keeps;
  }

  /** `storage_shrink_terminal_failure`: reclamation ends in Completed, all else rolls back. */
  method TerminalFailure(w: World, job: nat, now: int) returns (ok: bool)
    requires w.Valid()
    modifies w
    ensures w.Valid() && old(w.acts) <= w.acts
    ensures !(IsActive(old(w.s)) && old(w.s).op.value.id == job) ==> w.s == old(w.s) && ok
    ensures IsActive(old(w.s)) && old(w.s).op.value.id == job ==>
              var o := old(w.s).op.value;
              && (w.s.op == Some(o) || w.s.op == Some(TerminalSave(o, now).0))
              && (ok ==> At(w, o, {match o.phase
                                   case Queued => Queued
                                   case Reclaiming => Completed
                                   case _ => RollingBack}))
              && (ok ==> w.s.op.value.error) && (w.quiet ==> ok)
  {
    hide Inv, Run, CanSave, Between, Linked;
    if w.s.op.None? || !w.s.op.value.phase.Active() || w.s.op.value.id != job {
      return true;
    }
    var o := w.s.op.value;
    TerminalCanSave(w.s, o, now);
    var next := TerminalSave(o, now);
    ghost var mid;
    ok, mid := w.Commit(next.0, next.1);
    BetweenUnsaved(old(w.s), mid);
  }
}
