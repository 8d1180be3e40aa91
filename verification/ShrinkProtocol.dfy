/**
 The shrink protocol as a state machine over the saved operation, the workspace
 row and the cluster. Every action is one atomic database transaction or one
 Kubernetes API call, so a crash between any two of them is a run that stops
 there. `user`, `committed` and `reports` record history: what the workspace's own
 Pods last wrote, whether a Switch was ever committed, and which helper results the
 handler accepted.
 */
module ShrinkProtocol {
  import opened Options
  import opened ShrinkTypes
  import opened ShrinkStore
  import opened ShrinkCluster

  datatype PerRole<T> = PerRole(home: T, temporary: T)
  {
    function At(r: Role): T { if r.Home? then home else temporary }
    function With(r: Role, t: T): PerRole<T> {
      if r.Home? then this.(home := t) else this.(temporary := t)
    }
  }

  datatype State = State(
    op: Option<Operation>,
    ws: Workspace,
    workload: Option<Workload>,
    work: Option<WorkPod>,
    helpers: map<HelperName, Helper>,
    others: map<nat, set<ClaimName>>,
    claims: map<ClaimName, Claim>,
    pvs: map<nat, Pv>,
    backends: map<nat, nat>,
    user: PerRole<Data>,
    committed: bool,
    reports: map<(Role, Stage), Usage>,
    next: nat)

  datatype Action =
    // the workspace, Kubernetes and other tenants
    | UserWrite(role: Role, data: Data)
    | Observe
    | StartPod
    | WorkExit
    | OwnClaim(name: ClaimName)
    | CollectClaim(name: ClaimName)
    | BindClaim(name: ClaimName, driver: Driver, capacity: nat, policyDelete: bool)
    | HelperWrites(helper: HelperName, data: Data)
    | HelperSucceeds(helper: HelperName, usage: Usage)
    | HelperFails(helper: HelperName)
    | HelperExit(helper: HelperName)
    | FinalizeClaim(name: ClaimName)
    | ReleasePv(pv: nat)
    | RemovePv(pv: nat)
    | RemoveBackend(handle: nat)
    | OtherPod(pod: nat, mounts: set<ClaimName>)
    | OtherExit(pod: nat)
    // other requests on the same workspace, refused while an operation is active
    | Enqueue(request: Request, now: int)
    | Confirm(now: int)
    | RetryResume(now: int)
    | Lifecycle(state: WorkspaceState)
    | Reconcile(retain: bool)
    // the shrink handler
    | Save(op: Operation, update: Update)
    | RequestRetain
    | RequestStop
    | ReleaseOwner(role: Role)
    | CreateDestination(role: Role)
    | CreateHelper(role: Role, stage: Stage)
    | DeleteHelper(helper: HelperName)
    | Report(role: Role, stage: Stage)
    | MarkPvDelete(role: Role)
    | DeleteSourceClaim(role: Role)
    | DeleteSourcePv(role: Role)
    | ResumeWorkload(retain: bool)
    | RecordState(state: WorkspaceState)

  // ------------------------------------------------------------ views of a state

  predicate IsActive(s: State) { s.op.Some? && s.op.value.phase.Active() }

  function DataOf(s: State, n: ClaimName): Data
    requires n in s.claims
  {
    var v := s.claims[n].volume;
    if v.Some? && v.value in s.pvs then s.pvs[v.value].data else []
  }

  /** The claim behind a persistent volume still exists. */
  predicate ClaimAlive(s: State, p: nat)
    requires p in s.pvs
  {
    s.pvs[p].ref in s.claims && s.claims[s.pvs[p].ref].uid == s.pvs[p].refUid
  }

  predicate Mounted(s: State, n: ClaimName) {
    || (s.work.Some? && (s.work.value.home == n || s.work.value.scratch == n))
    || (exists h :: h in s.helpers && (s.helpers[h].source == Some(n) || s.helpers[h].dest == Some(n)))
    || (exists k :: k in s.others && n in s.others[k])
  }

  /** The controller can never again make this claim garbage-collectable. */
  predicate Unownable(s: State, n: ClaimName) {
    s.workload.Some? ==>
      && (s.workload.value.spec.retain || n !in s.workload.value.spec.templated)
      && (s.workload.value.observed.retain || n !in s.workload.value.observed.templated)
  }

  predicate Solid(s: State, b: Binding) {
    && b.name in s.claims
    && s.claims[b.name].uid == b.uid
    && !s.claims[b.name].deleting
    && !s.claims[b.name].gcOwned
    && s.claims[b.name].volume.Some?
  }

  /** No workspace Pod exists and the controller will not start one. */
  predicate Offline(s: State) {
    && s.work.None?
    && (s.workload.Some? ==>
          s.workload.value.spec.replicas == 0 && s.workload.value.observed.replicas == 0)
  }

  function RunningReplicas(st: WorkspaceState): nat {
    if st in {Provisioning, Ready, Starting, Restarting} then 1 else 0
  }

  function DesiredSpec(ws: Workspace, retain: bool): SetSpec {
    SetSpec(RunningReplicas(ws.state), retain, ws.Eff(Home), ws.Eff(Temporary),
            (if ws.home.None? then {DefaultClaim(Home)} else {})
            + (if ws.scratch.None? then {DefaultClaim(Temporary)} else {}))
  }

  function Applied(s: State, retain: bool): Workload {
    var spec := DesiredSpec(s.ws, retain);
    if s.workload.None? then Workload(spec, 1, spec.(replicas := 0), 0)
    else s.workload.value.(spec := spec, generation := s.workload.value.generation + 1)
  }

  function StageOf(p: Phase): Option<Stage> {
    match p
    case Queued => Some(Preflight)
    case Measuring => Some(Measure)
    case Copying => Some(Copy)
    case Verifying => Some(Verify)
    case _ => None
  }

  function NameOf(b: Option<Binding>): Option<ClaimName> {
    if b.Some? then Some(b.value.name) else None
  }

  // ------------------------------------------------ facts about an operation record

  predicate MeasuredPhase(p: Phase) {
    p in {Copying, Verifying, Switching, Resuming, Completed, Reclaiming, Reclaimed}
  }

  predicate VerifiedPhase(p: Phase) {
    p in {Switching, Resuming, Completed, Reclaiming, Reclaimed}
  }

  predicate SwitchedPhase(p: Phase) { p in {Resuming, Completed, Reclaiming, Reclaimed} }

  /** Phases in which the sources are still the bound volumes. */
  predicate SourcePhase(p: Phase) { p in {Stopping, Measuring, Copying, Verifying, Switching} }

  predicate OfflinePhase(p: Phase) { p in {Measuring, Copying, Verifying, Switching} }

  predicate CopiedPhase(p: Phase) { p in {Verifying, Switching} }

  predicate VolumeShape(id: nat, r: Role, v: Volume, p: Phase) {
    && (v.target.None? ==> v.destination.None? && v.used.None? && !v.verified)
    && (v.source.Some? ==>
          && !(v.source.value.name.ShrinkClaim? && v.source.value.name.op == id)
          && (v.source.value.name.DefaultClaim? ==> v.source.value.name.role == r))
    && (v.destination.Some? ==> v.destination.value.name == ShrinkClaim(id, r))
    && (v.verified ==> v.source.Some? && v.destination.Some? && v.destinationVolume.Some? && UsageBelowTarget(v))
    && (p == Measuring && v.used.Some? ==> UsageBelowTarget(v))
    && (p in {Queued, Stopping, Measuring, Copying} ==> !v.verified)
    && (MeasuredPhase(p) && v.target.Some? ==>
          UsageBelowTarget(v) && v.source.Some? && v.sourceVolume.Some? && v.destination.Some?)
    && (p in {Stopping, Measuring} && v.target.Some? ==> v.source.Some? && v.sourceVolume.Some?)
    && (p in {Queued, Stopping} ==> v.used.None?)
    && (p in {Queued, Stopping} ==> v.destination.None?)
    && (VerifiedPhase(p) && v.target.Some? ==> v.verified)
  }

  predicate AllVerified(o: Operation) {
    (o.home.target.Some? ==> o.home.verified) && (o.temporary.target.Some? ==> o.temporary.verified)
  }

  /** The size on record for a role is that of its source. */
  predicate SizeNoted(o: Operation, r: Role) {
    o.Vol(r).source.Some? ==> o.Original(r) == o.Vol(r).source.value.gib
  }

  predicate Shape(o: Operation) {
    && VolumeShape(o.id, Home, o.home, o.phase)
    && VolumeShape(o.id, Temporary, o.temporary, o.phase)
    && (o.home.source.Some? && o.temporary.source.Some? ==>
          o.home.source.value.name != o.temporary.source.value.name)
    && (o.switched ==> AllVerified(o))
    && (o.phase == Queued || SourcePhase(o.phase) ==> !o.switched)
    && (SwitchedPhase(o.phase) ==> o.switched)
    && (o.phase in {RollingBack, Failed} ==> o.error)
    && (o.phase in {Completed, Reclaiming} ==> o.reclaimable)
    && (o.phase != Queued && (o.phase == Failed ==> o.switched) ==> SizeNoted(o, Home) && SizeNoted(o, Temporary))
  }

  predicate KeepsOnce<T(==)>(a: Option<T>, b: Option<T>) { a.Some? ==> a == b }

  predicate KeepsVolume(v: Volume, w: Volume) {
    && v.target == w.target
    && KeepsOnce(v.source, w.source)
    && KeepsOnce(v.destination, w.destination)
    && KeepsOnce(v.used, w.used)
    && KeepsOnce(v.sourceVolume, w.sourceVolume)
    && (v.verified ==> w.verified)
  }

  /** A later record of the same operation only adds evidence. */
  predicate Keeps(o: Operation, o': Operation) {
    && o.id == o'.id && o.resume == o'.resume && o.reclaimSource == o'.reclaimSource
    && (o.switched ==> o'.switched)
    && KeepsVolume(o.home, o'.home)
    && KeepsVolume(o.temporary, o'.temporary)
    && (o.phase != Queued ==>
          && o.home.source == o'.home.source && o.temporary.source == o'.temporary.source
          && o.originalHome == o'.originalHome && o.originalTemporary == o'.originalTemporary)
    && (o.phase !in {Queued, Stopping, Measuring} ==>
          o.home.destination == o'.home.destination && o.temporary.destination == o'.temporary.destination)
  }

  // ----------------------------------------------------- facts tying it to the cluster

  /** The recorded sources are the claims the workspace uses now. */
  predicate SourcesNamed(s: State, o: Operation) {
    forall r: Role ::
      && (s.ws.Bound(r).Some? ==> o.Vol(r).source == s.ws.Bound(r))
      && (o.Vol(r).source.Some? ==> o.Vol(r).source.value.name == s.ws.Eff(r))
  }

  /** The sources exist, and neither deletion nor garbage collection can reach them. */
  predicate SourcesHeld(s: State, o: Operation) {
    && o.home.source.Some?
    && SourcesNamed(s, o)
    && forall r: Role :: o.Vol(r).source.Some? ==>
         Solid(s, o.Vol(r).source.value) && Unownable(s, o.Vol(r).source.value.name)
  }

  predicate DestinationsHeld(s: State, o: Operation) {
    forall r: Role :: o.Vol(r).destination.Some? ==>
      var d := o.Vol(r).destination.value;
      && d.name in s.claims
      && s.claims[d.name].uid == d.uid
      && !s.claims[d.name].deleting && !s.claims[d.name].gcOwned
  }

  predicate NoCopyRunning(s: State) {
    forall h :: h in s.helpers && h.stage == Copy ==> s.helpers[h].phase != Running
  }

  /** The replacement holds exactly what the source holds. */
  predicate Twin(s: State, v: Volume) {
    && v.source.Some? && v.destination.Some?
    && v.source.value.name in s.claims && v.destination.value.name in s.claims
    && s.claims[v.source.value.name].volume.Some?
    && s.claims[v.destination.value.name].volume.Some?
    && DataOf(s, v.source.value.name) == DataOf(s, v.destination.value.name)
  }

  predicate Twins(s: State, o: Operation) {
    && (forall r: Role :: o.Vol(r).verified ==> Twin(s, o.Vol(r)))
    && (o.phase == Verifying ==>
          forall r: Role ::
            var h := HelperName(o.id, r, Verify);
            h in s.helpers && s.helpers[h].phase == Succeeded ==> Twin(s, o.Vol(r)))
  }

  /** A verified volume was measured, copied and verified with one and the same usage. */
  predicate Audited(s: State, o: Operation) {
    forall r: Role ::
      && (o.Vol(r).target.Some? && o.phase in {Verifying, Switching} ==> Accepted(s, o, r, Copy))
      && (o.Vol(r).verified ==> Accepted(s, o, r, Copy) && Accepted(s, o, r, Verify))
  }

  predicate Accepted(s: State, o: Operation, r: Role, stage: Stage) {
    && (r, stage) in s.reports
    && o.Vol(r).used == Some(s.reports[(r, stage)])
  }

  /** Nothing is left of the sources an operation replaced. */
  predicate SourcesGone(s: State, o: Operation) {
    forall r: Role :: o.Vol(r).target.Some? ==> SourceGone(s, o.Vol(r))
  }

  predicate SourceGone(s: State, v: Volume) {
    && v.source.Some? && v.sourceVolume.Some?
    && v.source.value.name !in s.claims
    && v.sourceVolume.value.pv !in s.pvs
    && (v.sourceVolume.value.longhorn.Some? ==> v.sourceVolume.value.handle !in s.backends)
  }

  /** A recorded volume was handed out before, and no other volume has its handle. */
  predicate Sole(s: State, i: Identity) {
    && i.pv < s.next && i.handle < s.next
    && forall p :: p in s.pvs && s.pvs[p].handle == i.handle ==> p == i.pv
  }

  /** Identifiers recorded by an operation were handed out before. */
  predicate Known(s: State, o: Operation) {
    && o.id < s.next
    && forall r: Role :: o.Vol(r).sourceVolume.Some? ==> Sole(s, o.Vol(r).sourceVolume.value)
  }

  // ---------------------------------------------------------------- allowed actions

  predicate EnvEnabled(a: Action, s: State) {
    match a
    case UserWrite(r, _) =>
      && s.work.Some?
      && s.work.value.Mount(r) in s.claims
      && s.claims[s.work.value.Mount(r)].volume.Some?
      && s.claims[s.work.value.Mount(r)].volume.value in s.pvs
    case Observe => s.workload.Some?
    case StartPod => s.workload.Some? && s.workload.value.observed.replicas > 0 && s.work.None?
    case WorkExit => s.work.Some?
    case OwnClaim(n) =>
      && n in s.claims && s.workload.Some?
      && !s.workload.value.observed.retain && n in s.workload.value.observed.templated
    case CollectClaim(n) => n in s.claims && s.claims[n].gcOwned && s.work.None?
    case BindClaim(n, _, _, _) => n in s.claims && s.claims[n].volume.None? && !s.claims[n].deleting
    case HelperWrites(h, _) =>
      && h in s.helpers && h.stage == Copy && s.helpers[h].phase == Running
      && s.helpers[h].dest.Some?
      && s.helpers[h].dest.value in s.claims
      && s.claims[s.helpers[h].dest.value].volume.Some?
      && s.claims[s.helpers[h].dest.value].volume.value in s.pvs
    case HelperSucceeds(h, _) =>
      && h in s.helpers && s.helpers[h].phase == Running
      && (h.stage == Verify ==>
            && s.helpers[h].source.Some? && s.helpers[h].dest.Some?
            && s.helpers[h].source.value in s.claims && s.helpers[h].dest.value in s.claims
            && s.claims[s.helpers[h].source.value].volume.Some?
            && s.claims[s.helpers[h].dest.value].volume.Some?
            && DataOf(s, s.helpers[h].source.value) == DataOf(s, s.helpers[h].dest.value))
    case HelperFails(h) => h in s.helpers && s.helpers[h].phase == Running
    case HelperExit(h) => h in s.helpers
    case FinalizeClaim(n) => n in s.claims && s.claims[n].deleting && !Mounted(s, n)
    case ReleasePv(p) => p in s.pvs && !ClaimAlive(s, p)
    case RemovePv(p) =>
      && p in s.pvs && !ClaimAlive(s, p)
      && s.pvs[p].released && (s.pvs[p].policyDelete || s.pvs[p].deleting)
    case RemoveBackend(hd) => hd in s.backends && forall p :: p in s.pvs ==> s.pvs[p].handle != hd
    case OtherPod(k, _) => k !in s.others
    case OtherExit(k) => k in s.others
    case Enqueue(q, _) =>
      && !IsActive(s)
      && (s.op.Some? ==> !s.op.value.reclaimable)
      && RequestAllowed(q, s.ws)
    case Confirm(_) => s.op.Some? && ConfirmAllowed(s.op.value, s.ws)
    case RetryResume(_) => s.op.Some? && RetryAllowed(s.op.value, s.ws)
    case Lifecycle(_) => !IsActive(s)
    case Reconcile(_) => !IsActive(s)
    case _ => false
  }

  /** Which saves the handler makes: from one saved phase to the next, with which update. */
  predicate Edge(p: Phase, p': Phase, u: Update) {
    || (p == p' && u == NoUpdate && p in {Queued, Measuring, Copying, Verifying})
    || (p == Queued && p' == Stopping && u == ToStopping)
    || (p == Queued && p' == Failed && u == NoUpdate)
    || (p == Stopping && p' == Measuring && u == ToStopped)
    || (p == Measuring && p' == Copying && u == NoUpdate)
    || (p == Copying && p' == Verifying && u == NoUpdate)
    || (p == Verifying && p' == Switching && u == NoUpdate)
    || (p == Switching && p' == Resuming && u == Switch)
    || (p == Resuming && p' == Resuming && u == ToStarting)
    || (p == Resuming && p' in {Completed, Reclaiming} && u == NoUpdate)
    || (p == Reclaiming && p' in {Completed, Reclaimed} && u == NoUpdate)
    || (p' == RollingBack && u == ToStopping && p.Active())
    || (p == RollingBack && p' == Failed && u in {ToStopped, Rollback})
  }

  /** The evidence a save must have, about the state it commits in. */
  predicate Evidence(s: State, o: Operation) {
    && Shape(o)
    && Known(s, o)
    && Audited(s, o)
    && (o.phase == Queued ==> SourcesNamed(s, o))
    && (SourcePhase(o.phase) ==> SourcesHeld(s, o))
    && (o.phase == RollingBack && !s.committed ==> SourcesHeld(s, o))
    && (OfflinePhase(o.phase) ==> Offline(s))
    && (OfflinePhase(o.phase) ==> DestinationsHeld(s, o))
    && (CopiedPhase(o.phase) ==> NoCopyRunning(s) && Twins(s, o))
    && (o.phase == Resuming && !s.committed ==>
          && Offline(s) && s.helpers == map[]
          && SourcesHeld(s, o) && DestinationsHeld(s, o) && Twins(s, o))
    && (o.phase == Failed ==> s.helpers == map[])
    && (o.phase == Reclaimed ==> SourcesGone(s, o))
  }

  /** Nothing runs any more; beside a StatefulSet that takes every source being there. */
  predicate RollbackDone(s: State, o: Operation) {
    && Offline(s)
    && (s.workload.Some? ==>
          forall r: Role :: o.Vol(r).source.Some? ==>
            Solid(s, o.Vol(r).source.value) && Unownable(s, o.Vol(r).source.value.name))
  }

  /**
   The workspace is back if it was running before; sources are reclaimed right away
   only if the request asked for it, and then only an error puts that off.
   */
  predicate Recovered(s: State, o: Operation) {
    && (o.resume ==> s.ws.state == Ready)
    && (if o.phase == Reclaiming then o.reclaimSource else !o.reclaimSource || o.error)
  }

  /** What else must be so for the phase to change like this. */
  predicate Grounds(s: State, o: Operation, u: Update)
    requires s.op.Some?
  {
    var p := s.op.value.phase;
    && (u == Rollback ==> !o.switched)
    && (p == RollingBack && o.phase == Failed ==> RollbackDone(s, o))
    && (p == Resuming && o.phase in {Completed, Reclaiming} ==> Recovered(s, o))
  }

  predicate SaveEnabled(s: State, o: Operation, u: Update) {
    && IsActive(s)
    && Keeps(s.op.value, o)
    && Edge(s.op.value.phase, o.phase, u)
    && Grounds(s, o, u)
    && Evidence(s, o)
    && ApplyUpdate(s.ws, o, u).Some?
  }

  /** A source may be touched only when its verified replacement is what is bound, and works. */
  predicate Reclaimable(s: State, o: Operation, r: Role) {
    var v := o.Vol(r);
    && o.phase == Reclaiming && (o.resume ==> s.ws.state == Ready)
    && v.target.Some? && v.verified
    && v.source.Some? && v.destination.Some? && v.sourceVolume.Some?
    && s.ws.Bound(r) == v.destination
    && v.source.value.uid != v.destination.value.uid
    && v.sourceVolume.value.pv in s.pvs
    && PvMatches(v.sourceVolume.value.pv, s.pvs[v.sourceVolume.value.pv], v.source.value, v.sourceVolume.value)
  }

  predicate HandlerEnabled(a: Action, s: State) {
    && IsActive(s)
    && var o := s.op.value;
       match a
       case Save(o', u) => SaveEnabled(s, o', u)
       case RequestRetain => s.workload.Some?
       case RequestStop =>
         && s.workload.Some? && s.workload.value.spec.retain && s.workload.value.observed.retain
         && o.phase in {Stopping, Switching, RollingBack}
         && forall r: Role :: o.Vol(r).source.Some? ==> Solid(s, o.Vol(r).source.value)
       case ReleaseOwner(r) =>
         && o.phase == Queued && o.Vol(r).source.Some?
         && o.Vol(r).source.value.name in s.claims
         && s.claims[o.Vol(r).source.value.name].uid == o.Vol(r).source.value.uid
       case CreateDestination(r) =>
         && o.phase == Measuring && o.Vol(r).target.Some? && ShrinkClaim(o.id, r) !in s.claims
       case CreateHelper(r, stage) =>
         && StageOf(o.phase) == Some(stage) && HelperName(o.id, r, stage) !in s.helpers
         && (stage != Preflight ==> o.Vol(r).target.Some?)
       case DeleteHelper(h) => h in s.helpers && h.op == o.id
       case Report(r, stage) =>
         && HelperName(o.id, r, stage) in s.helpers
         && s.helpers[HelperName(o.id, r, stage)].phase == Succeeded
         && stage in {Copy, Verify} && StageOf(o.phase) == Some(stage)
         && o.Vol(r).used == Some(s.helpers[HelperName(o.id, r, stage)].usage)
       case MarkPvDelete(r) => Reclaimable(s, o, r)
       case DeleteSourceClaim(r) =>
         && Reclaimable(s, o, r)
         && s.pvs[o.Vol(r).sourceVolume.value.pv].policyDelete
         && o.Vol(r).source.value.name in s.claims
         && s.claims[o.Vol(r).source.value.name].uid == o.Vol(r).source.value.uid
       case DeleteSourcePv(r) =>
         && Reclaimable(s, o, r)
         && s.pvs[o.Vol(r).sourceVolume.value.pv].policyDelete
         && s.pvs[o.Vol(r).sourceVolume.value.pv].released
         && o.Vol(r).source.value.name !in s.claims
       case ResumeWorkload(_) => o.phase == Resuming
       case RecordState(_) => o.phase == Resuming
       case _ => false
  }

  predicate Enabled(a: Action, s: State) { EnvEnabled(a, s) || HandlerEnabled(a, s) }

  // ------------------------------------------------------------------- their effect

  function WriteClaim(s: State, n: ClaimName, d: Data): map<nat, Pv> {
    if n in s.claims && s.claims[n].volume.Some? && s.claims[n].volume.value in s.pvs then
      s.pvs[s.claims[n].volume.value := s.pvs[s.claims[n].volume.value].(data := d)]
    else s.pvs
  }

  /** Collecting a claim that Kubernetes still owned ends its data, as its owner asked. */
  function Forget(s: State, n: ClaimName): PerRole<Data> {
    PerRole(if s.ws.Eff(Home) == n then [] else s.user.home,
            if s.ws.Eff(Temporary) == n then [] else s.user.temporary)
  }

  function NewClaim(s: State, r: Role): Claim
    requires IsActive(s) && s.op.value.Vol(r).target.Some?
  {
    var v := s.op.value.Vol(r);
    var storageClass := if v.source.Some? && v.source.value.name in s.claims
                        then s.claims[v.source.value.name].storageClass else 0;
    Claim(s.next, true, Some(s.op.value.id), Some(v.target.value * GIB), None, storageClass, None, false, false)
  }

  function NewHelper(s: State, r: Role, stage: Stage): Helper
    requires IsActive(s)
  {
    var v := s.op.value.Vol(r);
    Helper(s.next, if stage == Preflight then None else NameOf(v.source), NameOf(v.destination),
           Running, Usage(0, 0), false)
  }

  function PvOf(s: State, r: Role): nat
    requires IsActive(s) && s.op.value.Vol(r).sourceVolume.Some?
  {
    s.op.value.Vol(r).sourceVolume.value.pv
  }

  function Saved(s: State, o: Operation, u: Update): State
    requires ApplyUpdate(s.ws, o, u).Some?
  {
    s.(op := Some(o), ws := ApplyUpdate(s.ws, o, u).value, committed := s.committed || u == Switch)
  }

  function Effect(a: Action, s: State): State
    requires Enabled(a, s)
  {
    if EnvEnabled(a, s) then EnvEffect(a, s) else HandlerEffect(a, s)
  }

  function EnvEffect(a: Action, s: State): State
    requires EnvEnabled(a, s)
  {
    match a
    case UserWrite(r, d) =>
      s.(pvs := WriteClaim(s, s.work.value.Mount(r), d), user := s.user.With(r, d))
    case Observe =>
      s.(workload := Some(s.workload.value.(observed := s.workload.value.spec,
                                            observedGeneration := s.workload.value.generation)))
    case StartPod =>
      s.(work := Some(WorkPod(s.workload.value.observed.home, s.workload.value.observed.scratch)))
    case WorkExit => s.(work := None)
    case OwnClaim(n) => s.(claims := s.claims[n := s.claims[n].(gcOwned := true)])
    case CollectClaim(n) => s.(claims := s.claims - {n}, user := Forget(s, n))
    case BindClaim(n, driver, capacity, policyDelete) =>
      s.(claims := s.claims[n := s.claims[n].(volume := Some(s.next), capacity := Some(capacity))],
         pvs := s.pvs[s.next := Pv(s.next, n, s.claims[n].uid, driver, s.next, s.claims[n].storageClass,
                                   policyDelete, false, false, [])],
         backends := if driver.Longhorn? then s.backends[s.next := s.next] else s.backends,
         next := s.next + 1)
    case HelperWrites(h, d) => s.(pvs := WriteClaim(s, s.helpers[h].dest.value, d))
    case HelperSucceeds(h, u) =>
      s.(helpers := s.helpers[h := s.helpers[h].(phase := Succeeded, usage := u)])
    case HelperFails(h) => s.(helpers := s.helpers[h := s.helpers[h].(phase := PodFailed)])
    case HelperExit(h) => s.(helpers := s.helpers - {h})
    case FinalizeClaim(n) => s.(claims := s.claims - {n})
    case ReleasePv(p) => s.(pvs := s.pvs[p := s.pvs[p].(released := true)])
    case RemovePv(p) => s.(pvs := s.pvs - {p})
    case RemoveBackend(hd) => s.(backends := s.backends - {hd})
    case OtherPod(k, m) => s.(others := s.others[k := m])
    case OtherExit(k) => s.(others := s.others - {k})
    case Enqueue(q, now) =>
      s.(op := Some(NewOperation(s.next, q, s.ws, now)), committed := false, reports := map[],
         next := s.next + 1)
    case Confirm(now) =>
      s.(op := Some(s.op.value.(phase := Reclaiming, updatedAt := now, error := false)))
    case RetryResume(now) =>
      s.(op := Some(s.op.value.(phase := Resuming, updatedAt := now, error := false)))
    case Lifecycle(st) => s.(ws := s.ws.(state := st))
    case Reconcile(retain) => s.(workload := Some(Applied(s, retain)))
  }

  function HandlerEffect(a: Action, s: State): State
    requires HandlerEnabled(a, s)
  {
    match a
    case Save(o, u) => Saved(s, o, u)
    case RequestRetain =>
      s.(workload := Some(s.workload.value.(spec := s.workload.value.spec.(retain := true),
                                            generation := s.workload.value.generation + 1)))
    case RequestStop =>
      s.(workload := Some(s.workload.value.(spec := s.workload.value.spec.(retain := true, replicas := 0),
                                            generation := s.workload.value.generation + 1)))
    case ReleaseOwner(r) =>
      var n := s.op.value.Vol(r).source.value.name;
      s.(claims := s.claims[n := s.claims[n].(gcOwned := false)])
    case CreateDestination(r) =>
      s.(claims := s.claims[ShrinkClaim(s.op.value.id, r) := NewClaim(s, r)], next := s.next + 1)
    case CreateHelper(r, stage) =>
      s.(helpers := s.helpers[HelperName(s.op.value.id, r, stage) := NewHelper(s, r, stage)],
         next := s.next + 1)
    case DeleteHelper(h) => s.(helpers := s.helpers[h := s.helpers[h].(deleting := true)])
    case Report(r, stage) =>
      s.(reports := s.reports[(r, stage) := s.helpers[HelperName(s.op.value.id, r, stage)].usage])
    case MarkPvDelete(r) => s.(pvs := s.pvs[PvOf(s, r) := s.pvs[PvOf(s, r)].(policyDelete := true)])
    case DeleteSourceClaim(r) =>
      var n := s.op.value.Vol(r).source.value.name;
      s.(claims := s.claims[n := s.claims[n].(deleting := true)])
    case DeleteSourcePv(r) => s.(pvs := s.pvs[PvOf(s, r) := s.pvs[PvOf(s, r)].(deleting := true)])
    case ResumeWorkload(retain) => s.(workload := Some(Applied(s, retain)))
    case RecordState(st) => s.(ws := s.ws.(state := st))
  }
}
