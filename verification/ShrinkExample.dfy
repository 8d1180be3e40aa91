/**
 One shrink from beginning to end, step by step: a stopped workspace with a bound,
 written home volume is moved to a smaller one and its source reclaimed; then the
 save of Reclaimed is lost.
 */
module ShrinkExample {
  import opened Options
  import opened ShrinkTypes
  import opened ShrinkStore
  import opened ShrinkCluster
  import opened ShrinkProtocol
  import opened ShrinkInvariant
  import opened ShrinkRuns
  import opened ShrinkWorld
  import opened ShrinkCoordinator
  import opened ShrinkHelpers
  import opened ShrinkStages
  import opened ShrinkMoves
  import opened ShrinkHandler

  // ------------------------------------------------------------------------- reaching states

  ghost predicate Reached(s: State) { exists ss, acts :: RunTo(ss, acts, s) }

  ghost predicate RunTo(ss: seq<State>, acts: seq<Action>, s: State) {
    |ss| > 0 && Run(ss, acts) && ss[|ss| - 1] == s
  }

  lemma ReachedStep(s: State, a: Action, s': State)
    requires Reached(s) && Step(s, a, s')
    ensures Reached(s')
  {
    hide Run, Step;
    var ss, acts :| RunTo(ss, acts, s);
    RunGrows(ss, acts, a, s');
    assert RunTo(ss + [s'], acts + [a], s');
  }

  lemma ReachedInv(s: State)
    requires Reached(s)
    ensures Inv(s)
  {
    hide Run;
    var ss, acts :| RunTo(ss, acts, s);
    RunsKeepInv(ss, acts, |ss| - 1);
  }

  lemma Others(s: State, a: Action)
    requires Reached(s) && EnvEnabled(a, s)
    ensures Reached(EnvEffect(a, s))
  {
    hide EnvEnabled, EnvEffect, Reached;
    ReachedStep(s, a, EnvEffect(a, s));
  }

  lemma Handler(s: State, a: Action)
    requires Reached(s) && HandlerEnabled(a, s)
    ensures Reached(HandlerEffect(a, s))
  {
    hide HandlerEnabled, HandlerEffect, Reached;
    ReachedInv(s);
    DoMove(s, a);
    ReachedStep(s, a, HandlerEffect(a, s));
  }

  lemma Saves(s: State, o: Operation, u: Update)
    requires Reached(s) && CanSave(s, o, u) && ApplyUpdate(s.ws, o, u).Some?
    ensures Reached(Saved(s, o, u))
  {
    hide Reached, CanSave, ApplyUpdate;
    CanSaveEnabled(s, o, u);
    Handler(s, Save(o, u));
    SaveEffect(s, o, u);
  }

  lemma ReachedLinked(s: State)
    requires Reached(s) && s.op.Some?
    ensures Inv(s) && Linked(s, s.op.value)
  {
    hide Reached, Inv, Linked;
    ReachedInv(s);
    SelfLinked(s);
  }

  /** A helper of the home volume is created, runs and succeeds. */
  lemma PodStarts(s: State, stage: Stage)
    requires Reached(s) && IsActive(s) && StageOf(s.op.value.phase) == Some(stage)
    requires HelperName(s.op.value.id, Home, stage) !in s.helpers && s.op.value.home.target.Some?
    ensures Reached(s.(helpers := s.helpers[HelperName(s.op.value.id, Home, stage) := NewHelper(s, Home, stage)],
                       next := s.next + 1))
  {
    hide Reached, NewHelper;
    Handler(s, CreateHelper(Home, stage));
  }

  lemma PodReports(s: State, stage: Stage)
    requires Reached(s) && HandlerEnabled(Report(Home, stage), s)
    ensures IsActive(s) && HelperName(s.op.value.id, Home, stage) in s.helpers
    ensures Reached(s.(reports := s.reports[(Home, stage) := s.helpers[HelperName(s.op.value.id, Home, stage)].usage]))
  {
    hide Reached;
    Handler(s, Report(Home, stage));
  }

  lemma PodLeaves(s: State, h: HelperName)
    requires Reached(s) && h in s.helpers
    ensures Reached(s.(helpers := s.helpers - {h}))
  {
    hide Reached;
    Others(s, HelperExit(h));
  }

  lemma PodEnds(s: State, h: HelperName, u: Usage)
    requires Reached(s) && EnvEnabled(HelperSucceeds(h, u), s)
    ensures h in s.helpers
    ensures Reached(s.(helpers := s.helpers[h := s.helpers[h].(phase := Succeeded, usage := u)]))
  {
    hide Reached, DataOf;
    Others(s, HelperSucceeds(h, u));
  }

  /** The source volume is marked for deletion, then its claim deleted. */
  lemma SourceMarked(s: State)
    requires Reached(s) && IsActive(s) && Reclaimable(s, s.op.value, Home)
    ensures Reached(s.(pvs := s.pvs[PvOf(s, Home) := s.pvs[PvOf(s, Home)].(policyDelete := true)]))
  {
    hide Reached, Reclaimable;
    Handler(s, MarkPvDelete(Home));
  }

  lemma SourceDeleted(s: State, n: ClaimName)
    requires Reached(s) && IsActive(s) && Reclaimable(s, s.op.value, Home)
    requires s.pvs[PvOf(s, Home)].policyDelete
    requires s.op.value.home.source.value.name == n && n in s.claims
    requires s.claims[n].uid == s.op.value.home.source.value.uid
    ensures Reached(s.(claims := s.claims[n := s.claims[n].(deleting := true)]))
  {
    hide Reached;
    Handler(s, DeleteSourceClaim(Home));
  }

  /** Setting a key twice leaves the last value. */
  lemma Overwrites<K, V>(m: map<K, V>, k: K, v: V, w: V)
    ensures m[k := v][k := w] == m[k := w]
  {
  }

  // ------------------------------------------------------------------------------ the pieces

  const ID: nat := 10
  const SOURCE: ClaimName := NamedClaim(0)
  const REPLACEMENT: ClaimName := ShrinkClaim(10, Home)
  const DRIVER: Driver := OtherDriver(0)
  const BEFORE: Binding := Binding(SOURCE, 1, 20)
  const AFTER: Binding := Binding(REPLACEMENT, 13, 10)
  const OLD_VOLUME: Identity := Identity(2, 3, DRIVER, 4, 5, None)
  const NEW_VOLUME: Identity := Identity(14, 14, DRIVER, 14, 5, None)
  const USAGE: Usage := Usage(1, 1)

  const ROW: Workspace := Workspace(Stopped, Some(BEFORE), None, 20, 5)
  const STOPPING_ROW: Workspace := Workspace(WsStopping, Some(BEFORE), None, 20, 5)
  const SWITCHED_ROW: Workspace := Workspace(Stopped, Some(AFTER), None, 10, 5)

  const SPEC: SetSpec := SetSpec(0, true, SOURCE, DefaultClaim(Temporary), {DefaultClaim(Temporary)})

  function Source(deleting: bool): Claim {
    Claim(1, true, None, Some(20 * GIB), Some(20 * GIB), 5, Some(2), false, deleting)
  }

  function Replacement(bound: bool): Claim {
    Claim(13, true, Some(10), Some(10 * GIB), if bound then Some(10 * GIB) else None, 5,
          if bound then Some(14) else None, false, false)
  }

  function OldVolume(policyDelete: bool, released: bool): Pv {
    Pv(3, SOURCE, 1, DRIVER, 4, 5, policyDelete, released, false, [7])
  }

  function NewVolume(data: Data): Pv { Pv(14, REPLACEMENT, 13, DRIVER, 14, 5, true, false, false, data) }

  function Pod(stage: Stage): HelperName { HelperName(ID, Home, stage) }

  /** A state of this example; what never changes in it is filled in. */
  function World(op: Option<Operation>, row: Workspace, helpers: map<HelperName, Helper>,
                 claims: map<ClaimName, Claim>, pvs: map<nat, Pv>, committed: bool,
                 reports: map<(Role, Stage), Usage>, next: nat): State {
    State(op, row, Some(Workload(SPEC, 1, SPEC, 1)), None, helpers, map[], claims, pvs, map[],
          PerRole([7], []), committed, reports, next)
  }

  function OnlySource(): map<ClaimName, Claim> { map[SOURCE := Source(false)] }
  function OnlyOld(): map<nat, Pv> { map[2 := OldVolume(false, false)] }

  function Start(): State { World(None, ROW, map[], OnlySource(), OnlyOld(), false, map[], ID) }

  /** A workspace with a bound home volume that holds what was written to it. */
  lemma StartIsInit()
    ensures Init(Start()) && Reached(Start())
    ensures DataOf(Start(), SOURCE) == [7] == Start().user.home
  {
    assert RunTo([Start()], [], Start());
  }

  // ------------------------------------------------------------------------------- the record

  function Queued0(): Operation { NewOperation(ID, Request(Some(10), None, true), ROW, 0) }

  function Queued1(): Operation {
    Queued0().WithVol(Home, Queued0().home.(sourceVolume := Some(OLD_VOLUME)))
  }

  lemma Enqueued()
    ensures Reached(World(Some(Queued1()), ROW, map[], OnlySource(), OnlyOld(), false, map[], 11))
  {
    hide Reached;
    StartIsInit();
    var request := Request(Some(10), None, true);
    Others(Start(), Enqueue(request, 0));
    var s := EnvEffect(Enqueue(request, 0), Start());
    assert s == World(Some(Queued0()), ROW, map[], OnlySource(), OnlyOld(), false, map[], 11);
    ReachedLinked(s);
    hide Linked, CanSave, Inv;
    IdentityFound(s, Queued0(), Home, OLD_VOLUME);
    LinkedCanSave(s, Queued1());
    Saves(s, Queued1(), NoUpdate);
  }

  // ----------------------------------------------------------------------- until it is copied

  function Preflighted(phase: PodPhase): Helper {
    Helper(11, None, None, phase, if phase == Running then Usage(0, 0) else USAGE, false)
  }

  function Measurer(phase: PodPhase): Helper {
    Helper(12, Some(SOURCE), None, phase, if phase == Running then Usage(0, 0) else USAGE, false)
  }

  function Copier(phase: PodPhase): Helper {
    Helper(15, Some(SOURCE), Some(REPLACEMENT), phase, if phase == Running then Usage(0, 0) else USAGE, false)
  }

  function Verifier(phase: PodPhase): Helper {
    Helper(16, Some(SOURCE), Some(REPLACEMENT), phase, if phase == Running then Usage(0, 0) else USAGE, false)
  }

  function AfterPreflight(): map<HelperName, Helper> { map[][Pod(Preflight) := Preflighted(Succeeded)] }

  lemma PreflightSucceeds()
    ensures Reached(World(Some(Queued1()), ROW, AfterPreflight(), OnlySource(), OnlyOld(), false, map[], 12))
  {
    hide Reached;
    Enqueued();
    var s := World(Some(Queued1()), ROW, map[], OnlySource(), OnlyOld(), false, map[], 11);
    PodStarts(s, Preflight);
    var s1 := World(Some(Queued1()), ROW, map[][Pod(Preflight) := Preflighted(Running)], OnlySource(),
                    OnlyOld(), false, map[], 12);
    assert NewHelper(s, Home, Preflight) == Preflighted(Running);
    PodEnds(s1, Pod(Preflight), USAGE);
    Overwrites(map[], Pod(Preflight), Preflighted(Running), Preflighted(Succeeded));
  }

  function Stopping1(): Operation { Moved(Queued1(), Stopping, 0) }
  function Measuring1(): Operation { Moved(Stopping1(), Measuring, 0) }

  lemma Stops()
    ensures Reached(World(Some(Stopping1()), STOPPING_ROW, AfterPreflight(), OnlySource(), OnlyOld(), false, map[], 12))
  {
    hide Reached;
    PreflightSucceeds();
    var s := World(Some(Queued1()), ROW, AfterPreflight(), OnlySource(), OnlyOld(), false, map[], 12);
    ReachedLinked(s);
    hide Linked, CanSave, Inv;
    assert SourceHeld(s, Queued1(), Home) && SourceHeld(s, Queued1(), Temporary);
    BothRoles(s, Queued1());
    MoveToStopping(s, Queued1(), 0);
    Saves(s, Stopping1(), ToStopping);
  }

  lemma IsOffline()
    ensures Reached(World(Some(Measuring1()), ROW, AfterPreflight(), OnlySource(), OnlyOld(), false, map[], 12))
  {
    hide Reached;
    Stops();
    var s := World(Some(Stopping1()), STOPPING_ROW, AfterPreflight(), OnlySource(), OnlyOld(), false, map[], 12);
    ReachedLinked(s);
    hide Linked, CanSave, Inv;
    MoveToMeasuring(s, Stopping1(), 0);
    Saves(s, Measuring1(), ToStopped);
  }

  function AfterMeasure(): map<HelperName, Helper> { AfterPreflight()[Pod(Measure) := Measurer(Succeeded)] }

  function Measuring2(): Operation { Measured(Measuring1(), Home, USAGE) }

  lemma MeasureSucceeds()
    ensures Reached(World(Some(Measuring1()), ROW, AfterMeasure(), OnlySource(), OnlyOld(), false, map[], 13))
  {
    hide Reached;
    IsOffline();
    var s := World(Some(Measuring1()), ROW, AfterPreflight(), OnlySource(), OnlyOld(), false, map[], 12);
    PodStarts(s, Measure);
    var s1 := World(Some(Measuring1()), ROW, AfterPreflight()[Pod(Measure) := Measurer(Running)], OnlySource(),
                    OnlyOld(), false, map[], 13);
    assert NewHelper(s, Home, Measure) == Measurer(Running);
    PodEnds(s1, Pod(Measure), USAGE);
    Overwrites(AfterPreflight(), Pod(Measure), Measurer(Running), Measurer(Succeeded));
  }

  lemma IsMeasured()
    ensures Reached(World(Some(Measuring2()), ROW, AfterMeasure(), OnlySource(), OnlyOld(), false, map[], 13))
  {
    hide Reached;
    MeasureSucceeds();
    var s := World(Some(Measuring1()), ROW, AfterMeasure(), OnlySource(), OnlyOld(), false, map[], 13);
    ReachedLinked(s);
    hide Linked, CanSave, Inv;
    MeasuredLinked(s, Measuring1(), Home, USAGE);
    LinkedCanSave(s, Measuring2());
    Saves(s, Measuring2(), NoUpdate);
  }

  function BothClaims(bound: bool): map<ClaimName, Claim> { OnlySource()[REPLACEMENT := Replacement(bound)] }
  function BothVolumes(data: Data): map<nat, Pv> { OnlyOld()[14 := NewVolume(data)] }

  function Copying1(): Operation {
    Moved(Measuring2().WithVol(Home, Measuring2().home.(destination := Some(AFTER))), Copying, 0)
  }

  lemma DestinationAppears()
    ensures Reached(World(Some(Measuring2()), ROW, AfterMeasure(), BothClaims(false), OnlyOld(), false, map[], 14))
  {
    hide Reached;
    IsMeasured();
    var s := World(Some(Measuring2()), ROW, AfterMeasure(), OnlySource(), OnlyOld(), false, map[], 13);
    Handler(s, CreateDestination(Home));
  }

  lemma IsRequested()
    ensures Reached(World(Some(Copying1()), ROW, AfterMeasure(), BothClaims(false), OnlyOld(), false, map[], 14))
  {
    hide Reached;
    DestinationAppears();
    var s := World(Some(Measuring2()), ROW, AfterMeasure(), BothClaims(false), OnlyOld(), false, map[], 14);
    ReachedLinked(s);
    OwnClaimGuarded(s, REPLACEMENT);
    hide Linked, CanSave, Inv, Guarded;
    DestinationRecorded(s, Measuring2(), Home, AFTER);
    var o := Measuring2().WithVol(Home, Measuring2().home.(destination := Some(AFTER)));
    MoveToCopying(s, o, 0);
    Saves(s, Copying1(), NoUpdate);
  }

  lemma IsBound()
    ensures Reached(World(Some(Copying1()), ROW, AfterMeasure(), BothClaims(true), BothVolumes([]), false, map[], 15))
  {
    hide Reached;
    IsRequested();
    var s := World(Some(Copying1()), ROW, AfterMeasure(), BothClaims(false), OnlyOld(), false, map[], 14);
    Others(s, BindClaim(REPLACEMENT, DRIVER, 10 * GIB, true));
    Overwrites(OnlySource(), REPLACEMENT, Replacement(false), Replacement(true));
  }

  function AfterCopy(): map<HelperName, Helper> { AfterMeasure()[Pod(Copy) := Copier(Succeeded)] }
  function Copied(): map<(Role, Stage), Usage> { map[][(Home, Copy) := USAGE] }

  /** The example once the replacement holds the copy. */
  function Copies(o: Operation, helpers: map<HelperName, Helper>, reports: map<(Role, Stage), Usage>,
                  next: nat): State {
    World(Some(o), ROW, helpers, BothClaims(true), BothVolumes([7]), false, reports, next)
  }

  lemma IsCopied()
    ensures Reached(Copies(Copying1(), AfterMeasure()[Pod(Copy) := Copier(Running)], map[], 16))
  {
    hide Reached;
    IsBound();
    var s := World(Some(Copying1()), ROW, AfterMeasure(), BothClaims(true), BothVolumes([]), false, map[], 15);
    PodStarts(s, Copy);
    assert NewHelper(s, Home, Copy) == Copier(Running);
    var s1 := World(Some(Copying1()), ROW, AfterMeasure()[Pod(Copy) := Copier(Running)], BothClaims(true),
                    BothVolumes([]), false, map[], 16);
    Others(s1, HelperWrites(Pod(Copy), [7]));
    Overwrites(OnlyOld(), 14, NewVolume([]), NewVolume([7]));
  }

  lemma CopyEnds()
    ensures Reached(Copies(Copying1(), AfterCopy(), map[], 16))
  {
    hide Reached;
    IsCopied();
    PodEnds(Copies(Copying1(), AfterMeasure()[Pod(Copy) := Copier(Running)], map[], 16), Pod(Copy), USAGE);
    Overwrites(AfterMeasure(), Pod(Copy), Copier(Running), Copier(Succeeded));
  }

  lemma CopySucceeds()
    ensures Reached(Copies(Copying1(), AfterCopy(), Copied(), 16))
  {
    hide Reached;
    CopyEnds();
    PodReports(Copies(Copying1(), AfterCopy(), map[], 16), Copy);
  }

  // --------------------------------------------------------------------- until it is switched

  function Verifying1(): Operation { Moved(Copying1(), Verifying, 0) }

  lemma MayVerify()
    ensures var s := Copies(Copying1(), AfterCopy(), Copied(), 16);
            Reached(s) && CanSave(s, Verifying1(), NoUpdate)
  {
    hide Reached;
    CopySucceeds();
    var s := Copies(Copying1(), AfterCopy(), Copied(), 16);
    ReachedLinked(s);
    hide Linked, CanSave, Inv;
    assert CopyDone(s, Copying1(), Home);
    MoveToVerifying(s, Copying1(), 0);
  }

  lemma IsVerifying()
    ensures Reached(Copies(Verifying1(), AfterCopy(), Copied(), 16))
  {
    hide Reached, CanSave;
    MayVerify();
    Saves(Copies(Copying1(), AfterCopy(), Copied(), 16), Verifying1(), NoUpdate);
  }

  function AfterVerify(): map<HelperName, Helper> { AfterCopy()[Pod(Verify) := Verifier(Succeeded)] }
  function Agreed(): map<(Role, Stage), Usage> { Copied()[(Home, Verify) := USAGE] }

  lemma VerifyRuns()
    ensures Reached(Copies(Verifying1(), AfterCopy()[Pod(Verify) := Verifier(Running)], Copied(), 17))
  {
    hide Reached;
    IsVerifying();
    var s := Copies(Verifying1(), AfterCopy(), Copied(), 16);
    PodStarts(s, Verify);
    assert NewHelper(s, Home, Verify) == Verifier(Running);
  }

  lemma VerifyEnds()
    ensures Reached(Copies(Verifying1(), AfterVerify(), Copied(), 17))
  {
    hide Reached;
    VerifyRuns();
    PodEnds(Copies(Verifying1(), AfterCopy()[Pod(Verify) := Verifier(Running)], Copied(), 17), Pod(Verify), USAGE);
    Overwrites(AfterCopy(), Pod(Verify), Verifier(Running), Verifier(Succeeded));
  }

  lemma VerifySucceeds()
    ensures Reached(Copies(Verifying1(), AfterVerify(), Agreed(), 17))
  {
    hide Reached;
    VerifyEnds();
    PodReports(Copies(Verifying1(), AfterVerify(), Copied(), 17), Verify);
  }

  function Verifying2(): Operation { Verified(Verifying1(), Home, NEW_VOLUME) }
  function Switching1(): Operation { Moved(Verifying2(), Switching, 0) }

  lemma HomeIsVerified()
    ensures var s := Copies(Verifying1(), AfterVerify(), Agreed(), 17); Reached(s) && Linked(s, Verifying2())
  {
    hide Reached;
    VerifySucceeds();
    var s := Copies(Verifying1(), AfterVerify(), Agreed(), 17);
    ReachedLinked(s);
    hide Linked, Inv;
    RoleVerified(s, Verifying1(), Home, NEW_VOLUME);
  }

  lemma IsVerified()
    ensures Reached(Copies(Switching1(), AfterVerify(), Agreed(), 17))
  {
    hide Reached, Linked, CanSave;
    HomeIsVerified();
    var s := Copies(Verifying1(), AfterVerify(), Agreed(), 17);
    MoveToSwitching(s, Verifying2(), 0);
    Saves(s, Switching1(), NoUpdate);
  }

  lemma HelpersLeave()
    ensures Reached(Copies(Switching1(), map[], Agreed(), 17))
  {
    hide Reached;
    IsVerified();
    var s := Copies(Switching1(), AfterVerify(), Agreed(), 17);
    PodLeaves(s, Pod(Preflight));
    var s1 := s.(helpers := s.helpers - {Pod(Preflight)});
    PodLeaves(s1, Pod(Measure));
    var s2 := s1.(helpers := s1.helpers - {Pod(Measure)});
    PodLeaves(s2, Pod(Copy));
    var s3 := s2.(helpers := s2.helpers - {Pod(Copy)});
    PodLeaves(s3, Pod(Verify));
    assert s3.helpers - {Pod(Verify)} == map[];
  }

  function Resuming1(): Operation { AsSwitched(Switching1(), 0) }

  lemma MaySwitch()
    ensures var s := Copies(Switching1(), map[], Agreed(), 17); Reached(s) && CanSave(s, Resuming1(), Switch)
  {
    hide Reached;
    HelpersLeave();
    var s := Copies(Switching1(), map[], Agreed(), 17);
    ReachedLinked(s);
    hide Linked, CanSave, Inv;
    MoveToResuming(s, Switching1(), 0);
  }

  /** The example once it was switched. */
  function Switched(o: Operation, claims: map<ClaimName, Claim>, pvs: map<nat, Pv>): State {
    World(Some(o), SWITCHED_ROW, map[], claims, pvs, true, Agreed(), 17)
  }

  lemma IsSwitched()
    ensures Reached(Switched(Resuming1(), BothClaims(true), BothVolumes([7])))
  {
    hide Reached, CanSave;
    MaySwitch();
    Saves(Copies(Switching1(), map[], Agreed(), 17), Resuming1(), Switch);
  }

  /** Here the save of Reclaiming may be lost: the request asked for it, and yet the operation is Completed. */
  function Unconfirmed(): Operation { FailureSave(AsRecovered(Resuming1(), 0), 0).0 }

  lemma ConsentMayBePutOff()
    ensures var s := Switched(Unconfirmed(), BothClaims(true), BothVolumes([7]));
            && Reached(s) && Unconfirmed().reclaimSource && Unconfirmed().phase == Completed
            && ConfirmAllowed(Unconfirmed(), s.ws)
  {
    hide Reached, Inv;
    IsSwitched();
    var s := Switched(Resuming1(), BothClaims(true), BothVolumes([7]));
    ReachedInv(s);
    LostRecoverySave(s, Resuming1(), 0);
    Handler(s, Save(Unconfirmed(), NoUpdate));
    SaveEffect(s, Unconfirmed(), NoUpdate);
  }

  // -------------------------------------------------------------------- until it is reclaimed

  function Reclaiming1(): Operation { AsRecovered(Resuming1(), 0) }

  function Volumes(policyDelete: bool, released: bool): map<nat, Pv> {
    BothVolumes([7])[2 := OldVolume(policyDelete, released)]
  }

  lemma MayReclaim()
    ensures var s := Switched(Resuming1(), BothClaims(true), BothVolumes([7]));
            Reached(s) && CanSave(s, Reclaiming1(), NoUpdate)
  {
    hide Reached;
    IsSwitched();
    var s := Switched(Resuming1(), BothClaims(true), BothVolumes([7]));
    ReachedLinked(s);
    hide Linked, CanSave, Inv;
    MoveToRecovered(s, Resuming1(), 0);
  }

  lemma IsReclaiming()
    ensures Reached(Switched(Reclaiming1(), BothClaims(true), Volumes(false, false)))
  {
    hide Reached, CanSave;
    MayReclaim();
    Saves(Switched(Resuming1(), BothClaims(true), BothVolumes([7])), Reclaiming1(), NoUpdate);
    assert Volumes(false, false) == BothVolumes([7]);
  }

  lemma IsMarked()
    ensures Reached(Switched(Reclaiming1(), BothClaims(true), Volumes(true, false)))
  {
    hide Reached;
    IsReclaiming();
    var s := Switched(Reclaiming1(), BothClaims(true), Volumes(false, false));
    SourceMarked(s);
    Overwrites(BothVolumes([7]), 2, OldVolume(false, false), OldVolume(true, false));
  }

  function LeavingClaims(): map<ClaimName, Claim> { BothClaims(true)[SOURCE := Source(true)] }
  function LastClaim(): map<ClaimName, Claim> { map[REPLACEMENT := Replacement(true)] }

  lemma IsLeaving()
    ensures Reached(Switched(Reclaiming1(), LeavingClaims(), Volumes(true, false)))
  {
    hide Reached;
    IsMarked();
    SourceDeleted(Switched(Reclaiming1(), BothClaims(true), Volumes(true, false)), SOURCE);
  }

  lemma IsFinalized()
    ensures Reached(Switched(Reclaiming1(), LastClaim(), Volumes(true, false)))
  {
    hide Reached;
    IsLeaving();
    var s := Switched(Reclaiming1(), LeavingClaims(), Volumes(true, false));
    Others(s, FinalizeClaim(SOURCE));
    assert LeavingClaims() - {SOURCE} == LastClaim();
  }

  lemma IsReleased()
    ensures Reached(Switched(Reclaiming1(), LastClaim(), Volumes(true, true)))
  {
    hide Reached;
    IsFinalized();
    var s := Switched(Reclaiming1(), LastClaim(), Volumes(true, false));
    Others(s, ReleasePv(2));
    Overwrites(BothVolumes([7]), 2, OldVolume(true, false), OldVolume(true, true));
  }

  function LastVolume(): map<nat, Pv> { map[14 := NewVolume([7])] }

  function SourceReclaimed(): State { Switched(Reclaiming1(), LastClaim(), LastVolume()) }

  lemma IsGone()
    ensures Reached(SourceReclaimed())
  {
    hide Reached;
    IsReleased();
    var s := Switched(Reclaiming1(), LastClaim(), Volumes(true, true));
    Others(s, RemovePv(2));
    assert Volumes(true, true) - {2} == LastVolume();
  }

  // --------------------------------------------------------------------------- what it shows

  /**
   A whole shrink is a run: bound and written at the start, switched to an equal
   smaller volume, and with nothing left of the source at the end.
   */
  lemma AShrinkRunsToItsEnd()
    ensures Reached(Start()) && Start().ws.home == Some(BEFORE) && DataOf(Start(), SOURCE) == [7]
    ensures var s := SourceReclaimed();
            && Reached(s) && Inv(s) && s.op == Some(Reclaiming1()) && Reclaiming1().phase == Reclaiming
            && SourcesGone(s, Reclaiming1()) && s.ws.home == Some(AFTER) && DataOf(s, REPLACEMENT) == [7]
  {
    hide Reached;
    StartIsInit();
    IsGone();
    ReachedInv(SourceReclaimed());
  }

  /** From there the save of Reclaimed is lost, and the error arm saves this record. */
  function Unreclaimed(): Operation { FailureSave(AsReclaimed(Reclaiming1(), 0), 0).0 }
  function Stranded(): State { Saved(SourceReclaimed(), Unreclaimed(), ToStopping) }

  lemma LostSaveIsReached()
    ensures Reached(Stranded()) && Stuck(Stranded())
  {
    hide Reached, Inv;
    AShrinkRunsToItsEnd();
    LostReclaimSave(SourceReclaimed(), Reclaiming1(), 0);
    Handler(SourceReclaimed(), Save(Unreclaimed(), ToStopping));
    SaveEffect(SourceReclaimed(), Unreclaimed(), ToStopping);
  }

  /**
   That a failed reclamation returns to Completed is false: every run through this
   reached state stays rolling back, however long it goes on.
   */
  lemma LostSaveStrandsTheOperation(ss: seq<State>, acts: seq<Action>, i: nat, j: nat)
    requires Run(ss, acts) && i <= j < |ss| && ss[i] == Stranded()
    ensures Reached(Stranded())
    ensures ss[j].op.Some? && ss[j].op.value.id == ID && ss[j].op.value.phase == RollingBack
  {
    hide Reached, Run;
    LostSaveIsReached();
    StuckRollbackNeverEnds(ss, acts, i, j);
  }
}
