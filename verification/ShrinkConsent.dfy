/**
 What an operation owes to the request it was enqueued with: its targets, whether
 the workspace is started again, and whether its sources may go.
 */
module ShrinkConsent {
  import opened Options
  import opened ShrinkTypes
  import opened ShrinkStore
  import opened ShrinkCluster
  import opened ShrinkProtocol
  import opened ShrinkInvariant
  import opened ShrinkRuns

  /** The operation is the one this request on this row asked for. */
  predicate Asked(o: Operation, q: Request, ws: Workspace) {
    && o.home.target == q.home && o.temporary.target == q.temporary
    && o.reclaimSource == q.reclaimSource && o.resume == (ws.state == Ready)
  }

  /** The request makes something smaller, and nothing larger, of a workspace at rest. */
  predicate Shrinks(q: Request, ws: Workspace) {
    && (q.home.Some? || q.temporary.Some?) && ws.state in {Ready, Stopped}
    && (q.home.Some? ==> 0 < q.home.value < if ws.home.Some? then ws.home.value.gib else ws.diskGib)
    && (q.temporary.Some? ==> 0 < q.temporary.value < ws.temporaryGib)
  }

  /** A later record of the same operation asks for the same. */
  predicate SameRequest(o: Operation, o': Operation) {
    && o'.id == o.id && o'.home.target == o.home.target && o'.temporary.target == o.temporary.target
    && o'.reclaimSource == o.reclaimSource && o'.resume == o.resume
  }

  predicate Touches(a: Action) { a.MarkPvDelete? || a.DeleteSourceClaim? || a.DeleteSourcePv? }

  predicate ReclaimPhase(p: Phase) { p in {Reclaiming, Reclaimed} }

  lemma SaveConsents(s: State, o: Operation, u: Update)
    requires SaveEnabled(s, o, u)
    ensures SameRequest(s.op.value, o)
    ensures ReclaimPhase(o.phase) && !ReclaimPhase(s.op.value.phase) ==> o.reclaimSource
  {
    hide Evidence, ApplyUpdate, RollbackDone;
  }

  lemma OthersConsent(s: State, a: Action)
    requires EnvEnabled(a, s) && s.op.Some? && !a.Enqueue?
    ensures EnvEffect(a, s).op.Some? && SameRequest(s.op.value, EnvEffect(a, s).op.value)
    ensures ReclaimPhase(EnvEffect(a, s).op.value.phase) && !ReclaimPhase(s.op.value.phase) ==> a.Confirm?
  {
    if Calm(a) {
      hide EnvEnabled, EnvEffect;
      SameOp(s, a);
    } else {
      hide ConfirmAllowed, RetryAllowed;
    }
  }

  /** Reclaiming starts with the consent of the request, or with a confirmation. */
  lemma StepConsents(s: State, a: Action)
    requires Enabled(a, s) && s.op.Some? && !a.Enqueue?
    ensures Effect(a, s).op.Some? && SameRequest(s.op.value, Effect(a, s).op.value)
    ensures ReclaimPhase(Effect(a, s).op.value.phase) && !ReclaimPhase(s.op.value.phase) ==>
              s.op.value.reclaimSource || a.Confirm?
  {
    hide EnvEnabled, EnvEffect, HandlerEnabled, HandlerEffect;
    if EnvEnabled(a, s) {
      OthersConsent(s, a);
    } else if a.Save? {
      SaveEffect(s, a.op, a.update);
      SaveConsents(s, a.op, a.update);
    } else {
      HandlerIsActive(s, a);
      HandlerSameOp(s, a);
    }
  }

  lemma EnqueueAsks(s: State, q: Request, now: int)
    requires EnvEnabled(Enqueue(q, now), s)
    ensures var s' := EnvEffect(Enqueue(q, now), s);
            s'.op.Some? && Asked(s'.op.value, q, s.ws) && s'.op.value.id == s.next && s'.op.value.phase == Queued
    ensures Shrinks(q, s.ws)
  {
  }

  lemma NothingBefore(s: State, a: Action)
    requires Enabled(a, s) && s.op.None? && Effect(a, s).op.Some?
    ensures a.Enqueue?
  {
    hide HandlerEnabled, HandlerEffect, EnvEffect;
    if EnvEnabled(a, s) {
      OthersNeverSave(s, a);
      if Calm(a) {
        SameOp(s, a);
      }
    } else {
      HandlerIsActive(s, a);
    }
  }

  lemma HandlerNeverEnqueues(s: State, a: Action)
    requires Enabled(a, s) && a.Enqueue?
    ensures EnvEnabled(a, s)
  {
  }

  /** Since this request nothing else was enqueued, and a confirmation came at `c` if there was one to count on. */
  ghost predicate Since(acts: seq<Action>, o: Operation, e: nat, c: nat, i: nat)
    requires i <= |acts|
  {
    && e < i && acts[e].Enqueue? && (forall k :: e < k < i ==> !acts[k].Enqueue?)
    && (ReclaimPhase(o.phase) ==> acts[e].request.reclaimSource || (e < c < i && acts[c].Confirm?))
  }

  /** Every operation of every run goes back to the last request before it, which was allowed. */
  lemma {:induction false} Origin(ss: seq<State>, acts: seq<Action>, i: nat) returns (e: nat, c: nat)
    requires Run(ss, acts) && i < |ss| && ss[i].op.Some?
    ensures Since(acts, ss[i].op.value, e, c, i)
    ensures Asked(ss[i].op.value, acts[e].request, ss[e].ws) && ss[i].op.value.id == ss[e].next
    ensures Shrinks(acts[e].request, ss[e].ws)
  {
    hide Enabled, Effect, Inv;
    var s, a := ss[i - 1], acts[i - 1];
    assert Step(s, a, ss[i]);
    if s.op.None? {
      NothingBefore(s, a);
    }
    if a.Enqueue? {
      e, c := i - 1, i - 1;
      Enqueued(s, a);
    } else {
      e, c := Origin(ss, acts, i - 1);
      StepConsents(s, a);
      if a.Confirm? {
        c := i - 1;
      }
    }
  }

  lemma Enqueued(s: State, a: Action)
    requires Enabled(a, s) && a.Enqueue?
    ensures var s' := Effect(a, s);
            && s'.op.Some? && Asked(s'.op.value, a.request, s.ws)
            && s'.op.value.id == s.next && s'.op.value.phase == Queued
    ensures Shrinks(a.request, s.ws)
  {
    hide EnvEnabled, EnvEffect, HandlerEnabled, HandlerEffect, Shrinks;
    HandlerNeverEnqueues(s, a);
    EnqueueAsks(s, a.request, a.now);
  }

  /**
   A source is marked or deleted only with the user's consent: the request that
   started this operation asked for it, or the operation was confirmed since; and
   never before a workspace that ran is ready again.
   */
  lemma SourcesGoOnlyWithConsent(ss: seq<State>, acts: seq<Action>, i: nat) returns (e: nat, c: nat)
    requires Run(ss, acts) && i < |acts| && Touches(acts[i])
    ensures e < i && acts[e].Enqueue? && (forall k :: e < k < i ==> !acts[k].Enqueue?)
    ensures ss[i].op.Some? && ss[i].op.value.id == ss[e].next
    ensures acts[e].request.reclaimSource || (e < c < i && acts[c].Confirm?)
    ensures (if acts[i].role == Home then acts[e].request.home else acts[e].request.temporary).Some?
    ensures ss[e].ws.state == Ready ==> ss[i].ws.state == Ready
  {
    hide Enabled, Effect, Inv;
    assert Step(ss[i], acts[i], ss[i + 1]);
    TouchStep(ss[i], acts[i]);
    e, c := Origin(ss, acts, i);
  }

  lemma TouchStep(s: State, a: Action)
    requires Enabled(a, s) && Touches(a)
    ensures s.op.Some? && s.op.value.phase == Reclaiming && s.op.value.Vol(a.role).target.Some?
    ensures s.op.value.resume ==> s.ws.state == Ready
  {
    hide PvMatches;
  }

  // ------------------------------------------------------------------------------ recovery

  /**
   An operation leaves Resuming for Reclaiming only if the request asked for it, and
   for Completed otherwise, or when an error is recorded; and only with the
   workspace ready if it was ready when the operation was requested.
   */
  lemma RecoveryIsReal(ss: seq<State>, acts: seq<Action>, i: nat) returns (e: nat)
    requires Run(ss, acts) && i < |acts| && acts[i].Save?
    requires ss[i].op.Some? && ss[i].op.value.phase == Resuming && acts[i].op.phase in {Completed, Reclaiming}
    ensures e < i && acts[e].Enqueue? && (forall k :: e < k < i ==> !acts[k].Enqueue?)
    ensures acts[i].op.phase == Reclaiming ==> acts[e].request.reclaimSource
    ensures acts[i].op.phase == Completed && acts[e].request.reclaimSource ==> acts[i].op.error
    ensures ss[e].ws.state == Ready ==> ss[i].ws.state == Ready
    ensures acts[i].op.reclaimable
  {
    hide Enabled, Effect, Inv;
    assert Step(ss[i], acts[i], ss[i + 1]);
    SaveIsEnabled(ss[i], acts[i]);
    RecoverySave(ss[i], acts[i].op, acts[i].update);
    var c;
    e, c := Origin(ss, acts, i);
  }

  lemma SaveIsEnabled(s: State, a: Action)
    requires Enabled(a, s) && a.Save?
    ensures SaveEnabled(s, a.op, a.update)
  {
    hide SaveEnabled;
  }

  lemma RecoverySave(s: State, o: Operation, u: Update)
    requires SaveEnabled(s, o, u) && s.op.value.phase == Resuming && o.phase in {Completed, Reclaiming}
    ensures Recovered(s, o) && SameRequest(s.op.value, o) && o.reclaimable
  {
    hide VolumeShape, SizeNoted, Audited, Known, ApplyUpdate;
  }

  /** In every state of every run, what failed says so, and what is completed can be confirmed. */
  lemma RecordsAreTrue(ss: seq<State>, acts: seq<Action>, i: nat)
    requires Run(ss, acts) && i < |ss| && ss[i].op.Some?
    ensures var o := ss[i].op.value;
            && (o.phase in {RollingBack, Failed} ==> o.error)
            && (o.phase in {Completed, Reclaiming} ==> o.reclaimable)
  {
    RunsKeepInv(ss, acts, i);
    assert Shape(ss[i].op.value);
  }

  // ----------------------------------------------------------------------------- row sizes

  /** After a Switch or a Rollback the row gives the sizes of the volumes it is bound to. */
  lemma RowSizesFollowVolumes(ss: seq<State>, acts: seq<Action>, i: nat)
    requires Run(ss, acts) && i < |acts| && acts[i].Save? && acts[i].update in {Switch, Rollback}
    ensures var ws := ss[i + 1].ws;
            && ws.home.Some? && ws.diskGib == ws.home.value.gib
            && (ws.scratch.Some? ==> ws.temporaryGib == ws.scratch.value.gib)
    ensures acts[i].update == Switch && acts[i].op.home.target.Some? ==>
              ss[i + 1].ws.diskGib == acts[i].op.home.target.value < ss[i].op.value.originalHome
    ensures acts[i].update == Switch && acts[i].op.temporary.target.Some? ==>
              ss[i + 1].ws.temporaryGib == acts[i].op.temporary.target.value < ss[i].op.value.originalTemporary
  {
    RunsKeepInv(ss, acts, i);
    hide Enabled, Effect, Inv;
    assert Step(ss[i], acts[i], ss[i + 1]);
    SaveIsEnabled(ss[i], acts[i]);
    var s, o, u := ss[i], acts[i].op, acts[i].update;
    SaveIsSaved(s, acts[i]);
    SaveSizes(s, o, u);
    RowSizes(s.ws, o, u);
  }

  lemma SaveIsSaved(s: State, a: Action)
    requires Enabled(a, s) && a.Save?
    ensures SaveEnabled(s, a.op, a.update) && Effect(a, s) == Saved(s, a.op, a.update)
  {
    hide Evidence, Keeps, Edge, Grounds, ApplyUpdate;
  }

  /** The sizes on record when such a save is made. */
  lemma SaveSizes(s: State, o: Operation, u: Update)
    requires Inv(s) && SaveEnabled(s, o, u) && u in {Switch, Rollback}
    ensures o.home.source.Some? && SizeNoted(o, Home) && SizeNoted(o, Temporary)
    ensures forall r: Role :: o.Vol(r).target.None? ==> o.Vol(r).destination.None?
    ensures o.originalHome == s.op.value.originalHome && o.originalTemporary == s.op.value.originalTemporary
  {
    hide Base, Audited, Twins, SourcesGone, DestinationsHeld, NoCopyRunning, Offline, SizeNoted, RollbackDone, Solid,
         Unownable, SourcesNamed, UsageBelowTarget, VerifiedDestination, Known;
    NotedStays(s.op.value, o);
    if u == Rollback {
      assert CommitOk(s, s.op.value);
    }
  }

  lemma NotedStays(saved: Operation, o: Operation)
    requires Shape(saved) && Keeps(saved, o) && saved.phase in {Switching, RollingBack}
    ensures SizeNoted(o, Home) && SizeNoted(o, Temporary)
  {
    hide VolumeShape;
    assert saved.home == saved.Vol(Home) && saved.temporary == saved.Vol(Temporary);
  }

  lemma RowSizes(ws: Workspace, o: Operation, u: Update)
    requires u in {Switch, Rollback} && ApplyUpdate(ws, o, u).Some?
    requires o.home.source.Some? && SizeNoted(o, Home) && SizeNoted(o, Temporary)
    requires forall r: Role :: o.Vol(r).target.None? ==> o.Vol(r).destination.None?
    ensures var row := ApplyUpdate(ws, o, u).value;
            && row.home.Some? && row.diskGib == row.home.value.gib
            && (row.scratch.Some? ==> row.temporaryGib == row.scratch.value.gib)
            && (u == Switch && o.home.target.Some? ==> row.diskGib == o.home.target.value < o.originalHome)
            && (u == Switch && o.temporary.target.Some? ==>
                  row.temporaryGib == o.temporary.target.value < o.originalTemporary)
  {
    hide UsageBelowTarget;
    assert o.home == o.Vol(Home) && o.temporary == o.Vol(Temporary);
  }
}
