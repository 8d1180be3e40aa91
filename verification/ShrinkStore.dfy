/**
 The database side of a shrink operation: the workspace update committed together
 with every save, and the checks made when an operation is requested, retried or
 confirmed.
 */
module ShrinkStore {
  import opened Options
  import opened ShrinkTypes

  function Checked(gib: u64): Option<u64> {
    if gib * GIB < U64_LIMIT then Some(gib * GIB) else None
  }

  function OrElse<T>(first: Option<T>, second: Option<T>): Option<T> {
    if first.Some? then first else second
  }

  predicate UsageBelowTarget(v: Volume) {
    && v.target.Some?
    && v.used.Some?
    && Checked(v.target.value).Some?
    && v.used.value.bytes < Checked(v.target.value).value
  }

  /** A targeted volume may become the bound one only with this evidence recorded. */
  predicate VerifiedDestination(v: Volume) {
    v.target.Some? ==>
      && v.verified
      && v.source.Some? && v.source.value.IsValid() && v.source.value.gib > v.target.value
      && v.destination.Some? && v.destination.value.IsValid()
      && v.destination.value.gib == v.target.value
      && v.source.value.uid != v.destination.value.uid
      && UsageBelowTarget(v)
      && v.destinationVolume.Some? && v.sourceVolume.Some?
      && v.sourceVolume.value.pvUid != v.destinationVolume.value.pvUid
      && v.sourceVolume.value.driver == v.destinationVolume.value.driver
      && v.sourceVolume.value.storageClass == v.destinationVolume.value.storageClass
      && v.sourceVolume.value.handle != v.destinationVolume.value.handle
  }

  function ApplyUpdate(ws: Workspace, o: Operation, u: Update): Option<Workspace> {
    match u
    case NoUpdate => Some(ws)
    case ToStopping =>
      Some(ws.(state := WsStopping, scratch := if o.switched then ws.scratch else o.temporary.source))
    case ToStopped => Some(ws.(state := Stopped))
    case ToStarting => Some(ws.(state := Starting))
    case Switch =>
      if VerifiedDestination(o.home) && VerifiedDestination(o.temporary) then
        Some(ws.(
          state := Stopped,
          home := OrElse(o.home.destination, o.home.source),
          scratch := OrElse(o.temporary.destination, o.temporary.source),
          diskGib := if o.home.target.Some? then o.home.target.value else o.originalHome,
          temporaryGib := if o.temporary.target.Some? then o.temporary.target.value else o.originalTemporary))
      else None
    case Rollback =>
      Some(ws.(
        state := Stopped,
        home := o.home.source,
        scratch := o.temporary.source,
        diskGib := o.originalHome,
        temporaryGib := o.originalTemporary))
  }

  predicate RequestAllowed(q: Request, ws: Workspace) {
    var home := if ws.home.Some? then ws.home.value.gib else ws.diskGib;
    && (q.home.Some? || q.temporary.Some?)
    && (q.home.Some? ==>
          && 0 < q.home.value < home
          && q.home.value * GIB <= I64_MAX)
    && (q.temporary.Some? ==> 0 < q.temporary.value < ws.temporaryGib && q.temporary.value <= 2048)
    && ws.state in {Ready, Stopped}
  }

  function NewVolume(target: Option<u64>, source: Option<Binding>): Volume {
    Volume(target, source, None, None, false, None, None)
  }

  function NewOperation(id: nat, q: Request, ws: Workspace, now: int): Operation {
    Operation(id, Queued, false, NewVolume(q.home, ws.home), NewVolume(q.temporary, ws.scratch),
              ws.state == Ready, q.reclaimSource, now, ws.diskGib, ws.temporaryGib,
              false, true, false, map[])
  }

  /** `confirm_storage_shrink`: a completed operation may start reclaiming its sources. */
  predicate ConfirmAllowed(o: Operation, ws: Workspace) {
    && o.phase == Completed && o.reclaimable
    && ws.state == if o.resume then Ready else Stopped
  }

  predicate RetryVolume(v: Volume, current: Option<Binding>, currentGib: u64, originalGib: u64) {
    if v.target.None? then
      v.source == current && v.destination.None? && currentGib == originalGib
    else
      && VerifiedDestination(v)
      && v.destination == current
      && currentGib == v.target.value
      && v.source.value.gib == originalGib
      && v.source.value.name != v.destination.value.name
      && v.sourceVolume.value.pv != v.destinationVolume.value.pv
  }

  /** `retry_storage_shrink_resume`: a failed recovery may be resumed on the replacements. */
  predicate RetryAllowed(o: Operation, ws: Workspace) {
    && o.phase == Failed && o.switched && o.sourcesRetained && !o.reclaimable
    && !o.reclaimSource && o.resume && ws.state == Ready
    && (o.home.target.Some? || o.temporary.target.Some?)
    && RetryVolume(o.home, ws.home, ws.diskGib, o.originalHome)
    && RetryVolume(o.temporary, ws.scratch, ws.temporaryGib, o.originalTemporary)
  }
}
