/**
 Call after call until a source is gone: what `delete_shrink_claim` asks for and
 what Kubernetes does about it add up.
 */
module ShrinkReclaimLoop {
  import opened Options
  import opened ShrinkTypes
  import opened ShrinkStore
  import opened ShrinkCluster
  import R = ShrinkReclaim
  import opened ShrinkProtocol
  import opened ShrinkInvariant
  import opened ShrinkRely
  import opened ShrinkRuns
  import opened ShrinkWorld
  import opened ShrinkCoordinator
  import opened ShrinkReclaimer

  /** Only other tenants' Pods can still mount a source that is being reclaimed. */
  lemma OnlyOthersMount(s: State, o: Operation, r: Role)
    requires Inv(s) && Confirmed(s, o, r)
    ensures var n := o.Vol(r).source.value.name;
            Mounted(s, n) ==> exists k :: k in s.others && n in s.others[k]
  {
    hide SourcesHeld, DestinationsHeld, Offline, Audited, Known, UserDataSafe, Twins;
    assert Shape(o) && CommitOk(s, o);
    assert s.ws.Bound(Home) == OrElse(o.home.destination, o.home.source);
    assert s.ws.Bound(Temporary) == OrElse(o.temporary.destination, o.temporary.source);
    HelpersMeanWork(s);
  }

  lemma HelpersMeanWork(s: State)
    requires Inv(s)
    ensures s.helpers != map[] ==> s.op.Some? && s.op.value.phase != Reclaiming
  {
    hide OpOk, Fresh, WorkloadOk, UserDataSafe;
    if s.helpers != map[] {
      var h :| h in s.helpers;
      assert HelperOk(s, h);
    }
  }

  /** One step of Kubernetes about a source; nothing comes back. */
  method Step1(w: World, o: Operation, r: Role, a: Action)
    requires w.Valid() && Confirmed(w.s, o, r) && EnvEnabled(a, w.s)
    modifies w
    ensures w.Valid() && w.acts == old(w.acts) + [a] && Between(old(w.s), w.s) && Confirmed(w.s, o, r)
    ensures w.s == EnvEffect(a, old(w.s)) && Recorded(o.Vol(r))
  {
    hide Inv, Between, Run, EnvEnabled, EnvEffect, Confirmed;
    ConfirmedParts(w.s, o, r);
    w.Other(a);
    ConfirmedBetween(old(w.s), w.s, o, r);
  }

  /** The Pods that still mount the claim go away. */
  method Unmount(w: World, o: Operation, r: Role)
    requires w.Valid() && Confirmed(w.s, o, r)
    modifies w
    ensures w.Valid() && old(w.acts) <= w.acts && Between(old(w.s), w.s) && Confirmed(w.s, o, r)
    ensures Recorded(o.Vol(r)) && !Mounted(w.s, o.Vol(r).source.value.name)
    ensures Left(w.s, o.Vol(r)) == Left(old(w.s), o.Vol(r))
  {
    hide Inv, Between, Run, Confirmed, Mounted;
    ConfirmedParts(w.s, o, r);
    var n := o.Vol(r).source.value.name;
    BetweenRefl(w.s);
    while exists k :: k in w.s.others && n in w.s.others[k]
      invariant w.Valid() && old(w.acts) <= w.acts && Between(old(w.s), w.s) && Confirmed(w.s, o, r)
      invariant Left(w.s, o.Vol(r)) == Left(old(w.s), o.Vol(r))
      decreases |w.s.others|
    {
      var k :| k in w.s.others && n in w.s.others[k];
      ghost var t := w.s;
      Step1(w, o, r, OtherExit(k));
      BetweenTrans(old(w.s), t, w.s);
      Smaller(t.others, k);
    }
    OnlyOthersMount(w.s, o, r);
  }

  lemma Smaller<K, V>(m: map<K, V>, k: K)
    requires k in m
    ensures |m - {k}| < |m|
  {
    assert (m - {k}).Keys == m.Keys - {k};
    assert |(m - {k}).Keys| == |m - {k}| && |m.Keys| == |m|;
  }

  /** What Kubernetes does next about a source that was asked to go. */
  function Next(s: State, v: Volume): Action
    requires Recorded(v)
  {
    var l := Left(s, v);
    if l.claim.Some? then FinalizeClaim(v.source.value.name)
    else if l.pv.None? then RemoveBackend(v.sourceVolume.value.handle)
    else if !l.pv.value.released then ReleasePv(v.sourceVolume.value.pv)
    else RemovePv(v.sourceVolume.value.pv)
  }

  lemma ClaimNext(s: State, v: Volume)
    requires Recorded(v) && Waits(s, v) && v.source.value.name in s.claims && !Mounted(s, v.source.value.name)
    ensures EnvEnabled(Next(s, v), s)
    ensures Left(EnvEffect(Next(s, v), s), v) == R.Settled(Left(s, v)) && EnvEffect(Next(s, v), s).others == s.others
  {
    hide Mounted, PvMatches;
  }

  lemma PvNext(s: State, v: Volume)
    requires Recorded(v) && Waits(s, v) && v.source.value.name !in s.claims && v.sourceVolume.value.pv in s.pvs
    ensures EnvEnabled(Next(s, v), s)
    ensures Left(EnvEffect(Next(s, v), s), v) == R.Settled(Left(s, v)) && EnvEffect(Next(s, v), s).others == s.others
  {
  }

  lemma BackendNext(s: State, v: Volume)
    requires Recorded(v) && Sole(s, v.sourceVolume.value) && Waits(s, v)
    requires v.source.value.name !in s.claims && v.sourceVolume.value.pv !in s.pvs
    ensures EnvEnabled(Next(s, v), s)
    ensures Left(EnvEffect(Next(s, v), s), v) == R.Settled(Left(s, v)) && EnvEffect(Next(s, v), s).others == s.others
  {
  }

  lemma SettledIsLess(s: State, v: Volume)
    requires Recorded(v) && Waits(s, v)
    ensures R.Work(R.Settled(Left(s, v))) < Todo(s, v)
  {
  }

  /** Kubernetes goes on with what it was asked for. */
  method Settle(w: World, o: Operation, r: Role)
    requires w.Valid() && Confirmed(w.s, o, r) && Recorded(o.Vol(r)) && Waits(w.s, o.Vol(r))
    modifies w
    ensures w.Valid() && old(w.acts) <= w.acts && Between(old(w.s), w.s) && Confirmed(w.s, o, r)
    ensures Left(w.s, o.Vol(r)) == R.Settled(Left(old(w.s), o.Vol(r)))
    ensures Todo(w.s, o.Vol(r)) < Todo(old(w.s), o.Vol(r))
    ensures !Mounted(w.s, o.Vol(r).source.value.name)
  {
    hide Inv, Between, Run, Confirmed, Mounted, EnvEnabled, EnvEffect, R.Settled, Left, Sole;
    SettledIsLess(w.s, o.Vol(r));
    Unmount(w, o, r);
    ghost var t := w.s;
    ghost var v := o.Vol(r);
    SameWaits(old(w.s), t, v);
    SoleSource(t, o, r);
    if v.source.value.name in t.claims {
      ClaimNext(t, v);
    } else if v.sourceVolume.value.pv in t.pvs {
      PvNext(t, v);
    } else {
      BackendNext(t, v);
    }
    Step1(w, o, r, Next(w.s, o.Vol(r)));
    BetweenTrans(old(w.s), t, w.s);
    OnlyOthersMount(t, o, r);
    OnlyOthersMount(w.s, o, r);
    OthersMount(t, v.source.value.name);
  }

  lemma SameWaits(s: State, s': State, v: Volume)
    requires Recorded(v) && Left(s', v) == Left(s, v) && Waits(s, v)
    ensures Waits(s', v)
  {
  }

  lemma SoleSource(s: State, o: Operation, r: Role)
    requires Inv(s) && Confirmed(s, o, r)
    ensures Sole(s, o.Vol(r).sourceVolume.value)
  {
    hide Sole;
  }

  lemma OthersMount(s: State, n: ClaimName)
    requires !Mounted(s, n)
    ensures !exists k :: k in s.others && n in s.others[k]
  {
  }

  // --------------------------------------------------------------------- call after call

  /** The objects are the recorded ones and nothing mounts the claim. */
  ghost predicate Clear(s: State, v: Volume)
    requires Recorded(v)
  {
    R.Kept(Left(s, v), v.source.value, v.sourceVolume.value) && !Mounted(s, v.source.value.name)
  }

  /** The one change a call makes, as it shows in what is left. */
  lemma ChangeLeft(s: State, o: Operation, r: Role, d: R.Verdict)
    requires s.op == Some(o) && Recorded(o.Vol(r)) && d in {R.PatchPolicy, R.RemoveClaim, R.RemovePv}
    requires HandlerEnabled(ActionFor(d, r), s)
    ensures var l, s' := Left(s, o.Vol(r)), HandlerEffect(ActionFor(d, r), s);
            && (if d == R.RemoveClaim then
                  l.claim.Some? && Left(s', o.Vol(r)) == l.(claim := Some(l.claim.value.(deleting := true)))
                else if d == R.PatchPolicy then
                  l.pv.Some? && Left(s', o.Vol(r)) == l.(pv := Some(l.pv.value.(policyDelete := true)))
                else l.pv.Some? && Left(s', o.Vol(r)) == l.(pv := Some(l.pv.value.(deleting := true))))
            && s'.work == s.work && s'.helpers == s.helpers && s'.others == s.others
  {
    hide PvMatches;
  }

  lemma SameMounts(s: State, s': State, n: ClaimName)
    requires s'.work == s.work && s'.helpers == s.helpers && s'.others == s.others
    ensures Mounted(s', n) == Mounted(s, n)
  {
  }

  /** Then an undisturbed call does what `ShrinkReclaim` says it does. */
  lemma CallIsCalled(w: World, s: State, acts: seq<Action>, done: Outcome<bool>, o: Operation, r: Role)
    requires s.op == Some(o) && Recorded(o.Vol(r)) && Clear(s, o.Vol(r))
    requires CallsFor(w, s, acts, done, o.Vol(r), r)
    ensures done.Ok?
    ensures Left(w.s, o.Vol(r)) == R.Called(Left(s, o.Vol(r)), o.Vol(r).source.value, o.Vol(r).sourceVolume.value)
    ensures Mounted(w.s, o.Vol(r).source.value.name) == Mounted(s, o.Vol(r).source.value.name)
  {
    hide R.Decide, Left, HandlerEnabled, HandlerEffect, Mounted, R.Kept;
    R.CallProgresses(Left(s, o.Vol(r)), o.Vol(r).source.value, o.Vol(r).sourceVolume.value);
    var d := Verdict(s, o.Vol(r));
    if d in {R.PatchPolicy, R.RemoveClaim, R.RemovePv} {
      ChangeLeft(s, o, r, d);
      SameMounts(s, w.s, o.Vol(r).source.value.name);
    }
  }

  lemma ClearAfterCall(s: State, s': State, v: Volume)
    requires Recorded(v) && Clear(s, v) && !Mounted(s', v.source.value.name)
    requires Left(s', v) == R.Called(Left(s, v), v.source.value, v.sourceVolume.value)
    ensures Clear(s', v)
  {
    hide R.Kept, R.Called, Left, Mounted;
    R.CallProgresses(Left(s, v), v.source.value, v.sourceVolume.value);
  }

  lemma ClearAfterSettling(s: State, s': State, v: Volume)
    requires Recorded(v) && Clear(s, v) && Waits(s, v) && !Mounted(s', v.source.value.name)
    requires Left(s', v) == R.Settled(Left(s, v))
    ensures Clear(s', v)
  {
    hide Mounted;
    R.SettlingProgresses(Left(s, v), Left(s', v), v.source.value, v.sourceVolume.value);
  }

  /**
   Calling until it is done, with Kubernetes going on in between: in no more calls
   than there was to do the source is gone or a call has failed, and no call fails
   on the recorded, unmounted objects unless somebody disturbs it.
   */
  method ReclaimUntilGone(w: World, o: Operation, r: Role) returns (gone: bool, calls: nat)
    requires w.Valid() && Confirmed(w.s, o, r)
    modifies w
    ensures w.Valid() && old(w.acts) <= w.acts && Confirmed(w.s, o, r) && Recorded(o.Vol(r))
    ensures gone ==> SourceGone(w.s, o.Vol(r))
    ensures calls <= Todo(old(w.s), o.Vol(r)) + 1
    ensures w.quiet && Clear(old(w.s), o.Vol(r)) ==> gone
  {
    hide Inv, Between, Run, Confirmed, Mounted, R.Settled, Left, Todo, Waits, SourceGone, Clear, CallsFor, Tidy;
    ConfirmedParts(w.s, o, r);
    ghost var v := o.Vol(r);
    calls := 0;
    while true
      invariant w.Valid() && old(w.acts) <= w.acts && Confirmed(w.s, o, r)
      invariant calls + Todo(w.s, v) <= Todo(old(w.s), v)
      invariant w.quiet && Clear(old(w.s), v) ==> Clear(w.s, v)
      decreases Todo(w.s, v)
    {
      ghost var t, acts := w.s, w.acts;
      var done := DeleteShrinkClaim(w, o, r);
      calls := calls + 1;
      if w.quiet && Clear(t, v) {
        ClearCall(w, t, acts, done, o, r);
      }
      if done.Err? {
        return false, calls;
      }
      if done.value {
        return true, calls;
      }
      if Waits(w.s, o.Vol(r)) {
        ghost var u := w.s;
        Settle(w, o, r);
        if Clear(u, v) {
          ClearAfterSettling(u, w.s, v);
        }
      }
    }
  }

  lemma ClearCall(w: World, s: State, acts: seq<Action>, done: Outcome<bool>, o: Operation, r: Role)
    requires Confirmed(s, o, r) && Recorded(o.Vol(r)) && Clear(s, o.Vol(r))
    requires CallsFor(w, s, acts, done, o.Vol(r), r)
    ensures done.Ok? && Clear(w.s, o.Vol(r))
  {
    hide CallsFor, Left, R.Called, R.Kept, Mounted;
    CallIsCalled(w, s, acts, done, o, r);
    ClearAfterCall(s, w.s, o.Vol(r));
  }
}
