/** Deleting the sources of a confirmed operation, one guarded change per call. */
module ShrinkReclaimer {
  import opened Options
  import opened ShrinkTypes
  import opened ShrinkStore
  import opened ShrinkCluster
  import R = ShrinkReclaim
  import opened ShrinkProtocol
  import opened ShrinkInvariant
  import opened ShrinkRely
  import opened ShrinkRuns
  import opened ShrinkWorld
  import opened ShrinkCoordinator

  /** The operation is reclaiming, and its workspace works if it did before. */
  predicate Reclaims(s: State, o: Operation) {
    s.op == Some(o) && o.phase == Reclaiming && (o.resume ==> s.ws.state == Ready)
  }

  /** What an operation in Reclaiming has on record for one role. */
  ghost predicate Confirmed(s: State, o: Operation, r: Role) {
    && Reclaims(s, o)
    && o.Vol(r).target.Some? && o.Vol(r).verified
    && o.Vol(r).source.Some? && o.Vol(r).destination.Some? && o.Vol(r).sourceVolume.Some?
    && s.ws.Bound(r) == o.Vol(r).destination
    && o.Vol(r).source.value.uid != o.Vol(r).destination.value.uid
  }

  /** Nothing came back: objects of the past only disappear. */
  ghost predicate Shrinks(s: State, s': State) { s.next <= s'.next && OnlyRemoves(s, s') }

  lemma ShrinksBetween(s: State, s': State)
    requires Between(s, s')
    ensures Shrinks(s, s')
  {
  }

  lemma ShrinksTrans(s: State, t: State, u: State)
    requires Shrinks(s, t) && Shrinks(t, u)
    ensures Shrinks(s, u)
  {
  }

  lemma StaysRemoved(s: State, s': State, o: Operation, r: Role)
    requires Shrinks(s, s') && Known(s, o) && SourceGone(s, o.Vol(r))
    ensures SourceGone(s', o.Vol(r))
  {
  }

  lemma StillReclaimable(s: State, o: Operation, r: Role)
    requires Confirmed(s, o, r) && SameVolume(s, o.Vol(r))
    ensures IsActive(s) && Reclaimable(s, o, r)
  {
  }

  lemma CanPatch(s: State, o: Operation, r: Role)
    requires Confirmed(s, o, r) && SameVolume(s, o.Vol(r))
    ensures HandlerEnabled(MarkPvDelete(r), s)
  {
    hide Reclaimable, SameVolume;
    StillReclaimable(s, o, r);
  }

  lemma CanDeleteClaim(s: State, o: Operation, r: Role)
    requires Confirmed(s, o, r) && SameVolume(s, o.Vol(r))
    requires var v := o.Vol(r);
             && s.pvs[v.sourceVolume.value.pv].policyDelete && v.source.value.name in s.claims
             && s.claims[v.source.value.name].uid == v.source.value.uid
    ensures HandlerEnabled(DeleteSourceClaim(r), s)
  {
    hide Reclaimable;
    StillReclaimable(s, o, r);
  }

  lemma CanDeletePv(s: State, o: Operation, r: Role)
    requires Confirmed(s, o, r) && SameVolume(s, o.Vol(r))
    requires var pv := s.pvs[o.Vol(r).sourceVolume.value.pv];
             pv.policyDelete && pv.released && o.Vol(r).source.value.name !in s.claims
    ensures HandlerEnabled(DeleteSourcePv(r), s)
  {
    hide Reclaimable;
    StillReclaimable(s, o, r);
  }

  ghost predicate SameVolume(s: State, v: Volume) {
    && v.source.Some? && v.sourceVolume.Some? && v.sourceVolume.value.pv in s.pvs
    && PvMatches(v.sourceVolume.value.pv, s.pvs[v.sourceVolume.value.pv], v.source.value, v.sourceVolume.value)
  }

  lemma ActionEffect(s: State, o: Operation, r: Role, a: Action)
    requires s.op == Some(o) && HandlerEnabled(a, s)
    requires a in {MarkPvDelete(r), DeleteSourceClaim(r), DeleteSourcePv(r)}
    ensures var s' := HandlerEffect(a, s);
            && s'.op == s.op && s'.ws == s.ws && s'.committed == s.committed && Shrinks(s, s')
  {
  }

  /** Everything one call leaves as it was. */
  ghost predicate Tidy(s: State, s': State) { Unsaved(s, s') && Shrinks(s, s') }

  lemma TidyBetween(s: State, t: State, u: State)
    requires Tidy(s, t) && Between(t, u)
    ensures Tidy(s, u)
  {
    BetweenUnsaved(t, u);
    UnsavedTrans(s, t, u);
    ShrinksBetween(t, u);
    ShrinksTrans(s, t, u);
  }

  lemma TidyStart(s: State)
    requires Inv(s)
    ensures Tidy(s, s)
  {
  }

  lemma TidyTrans(s: State, t: State, u: State)
    requires Tidy(s, t) && Tidy(t, u)
    ensures Tidy(s, u)
  {
    UnsavedTrans(s, t, u);
    ShrinksTrans(s, t, u);
  }

  /** The change a verdict calls for. */
  function ActionFor(d: R.Verdict, r: Role): Action
    requires d in {R.PatchPolicy, R.RemoveClaim, R.RemovePv}
  {
    match d
    case PatchPolicy => MarkPvDelete(r)
    case RemoveClaim => DeleteSourceClaim(r)
    case RemovePv => DeleteSourcePv(r)
  }

  method ActOn(w: World, o: Operation, r: Role, a: Action)
    requires w.Valid() && w.s.op == Some(o) && HandlerEnabled(a, w.s)
    requires a in {MarkPvDelete(r), DeleteSourceClaim(r), DeleteSourcePv(r)}
    modifies w
    ensures w.Valid() && w.acts == old(w.acts) + [a] && Tidy(old(w.s), w.s)
    ensures w.s == HandlerEffect(a, old(w.s))
  {
    hide Inv, Run, HandlerEnabled, HandlerEffect, KeepsLinks, Shrinks;
    ActionEffect(w.s, o, r, a);
    w.Do(a);
  }

  // ------------------------------------------------------------------------- what is left

  function Lookup<K, V>(m: map<K, V>, k: K): Option<V> { if k in m then Some(m[k]) else None }

  predicate Recorded(v: Volume) { v.source.Some? && v.sourceVolume.Some? }

  /** What is left of a recorded source. */
  function Left(s: State, v: Volume): R.Remains
    requires Recorded(v)
  {
    var i := v.sourceVolume.value;
    R.Remains(Lookup(s.claims, v.source.value.name), Lookup(s.pvs, i.pv),
              if i.longhorn.Some? then Lookup(s.backends, i.handle) else None)
  }

  function Todo(s: State, v: Volume): nat
    requires Recorded(v)
  {
    R.Work(Left(s, v))
  }

  /** Nothing can be asked for; it is for Kubernetes to finish what it was asked for. */
  predicate Waits(s: State, v: Volume)
    requires Recorded(v)
  {
    var l := Left(s, v);
    if l.claim.Some? then l.claim.value.deleting
    else if l.pv.Some? then
      l.pv.value.policyDelete && (!l.pv.value.released || l.pv.value.deleting)
      && PvMatches(v.sourceVolume.value.pv, l.pv.value, v.source.value, v.sourceVolume.value)
    else l.backend.Some?
  }

  function Verdict(s: State, v: Volume): R.Verdict
    requires Recorded(v)
  {
    var l := Left(s, v);
    R.Decide(l.claim, l.pv, l.backend, Mounted(s, v.source.value.name), v.source.value, v.sourceVolume.value)
  }

  lemma TodoFalls(s: State, s': State, v: Volume)
    requires Between(s, s') && Recorded(v) && v.sourceVolume.value.pv < s.next && v.sourceVolume.value.handle < s.next
    ensures Todo(s', v) <= Todo(s, v)
  {
    hide Inv, KeepsLinks, HelpersRely, WorkloadRely, KeepsGuarded, KeepsData;
    assert ClaimsRely(s, s') && PvsRely(s, s');
  }

  // -------------------------------------------------------------------------- reading it

  /** What the successive reads of one call found. */
  datatype Seen = Seen(claim: Option<Claim>, pv: Option<Pv>, backend: Option<nat>, mounted: bool)

  /** A claim read as missing is still missing; one read as there is the same one, or gone. */
  ghost predicate SawClaim(s0: State, s: State, v: Volume, claim: Option<Claim>)
    requires v.source.Some?
  {
    var n := v.source.value.name;
    if claim.None? then n !in s.claims
    else
      && n in s0.claims
      && (n in s.claims ==> s.claims[n].uid == claim.value.uid && s.claims[n].deleting == claim.value.deleting)
  }

  /** Likewise for a volume, which cannot go while the claim it refers to is there. */
  ghost predicate SawPv(s0: State, s: State, v: Volume, pv: Option<Pv>)
    requires v.sourceVolume.Some?
  {
    var p := v.sourceVolume.value.pv;
    if pv.None? then p !in s.pvs
    else
      && p in s0.pvs && (s0.pvs[p].released ==> pv.value.released)
      && (p in s.pvs ==>
            && s.pvs[p] == pv.value.(released := s.pvs[p].released, data := s.pvs[p].data)
            && (pv.value.released ==> s.pvs[p].released))
      && (RefAlive(s, pv.value) ==> p in s.pvs)
  }

  ghost predicate SawBackend(s0: State, s: State, v: Volume, backend: Option<nat>)
    requires v.sourceVolume.Some?
  {
    var hd := v.sourceVolume.value.handle;
    if backend.None? then hd !in s.backends else hd in s0.backends
  }

  ghost predicate Saw(s0: State, s: State, v: Volume, x: Seen)
    requires Recorded(v)
  {
    SawClaim(s0, s, v, x.claim) && SawPv(s0, s, v, x.pv) && SawBackend(s0, s, v, x.backend)
  }

  lemma SawStable(s0: State, s: State, s': State, v: Volume, x: Seen)
    requires Between(s, s') && Recorded(v) && v.sourceVolume.value.pv < s.next && v.sourceVolume.value.handle < s.next
    ensures SawClaim(s0, s, v, x.claim) ==> SawClaim(s0, s', v, x.claim)
    ensures SawPv(s0, s, v, x.pv) ==> SawPv(s0, s', v, x.pv)
    ensures SawBackend(s0, s, v, x.backend) ==> SawBackend(s0, s', v, x.backend)
  {
    hide Inv, KeepsLinks, HelpersRely, WorkloadRely, KeepsGuarded, KeepsData;
    assert ClaimsRely(s, s') && PvsRely(s, s');
  }

  /** A read at `s` of a call that began at `s0`. */
  lemma SawNow(s0: State, s: State, v: Volume)
    requires Between(s0, s) && Recorded(v)
    requires v.sourceVolume.value.pv < s0.next && v.sourceVolume.value.handle < s0.next
    ensures SawClaim(s0, s, v, Lookup(s.claims, v.source.value.name))
    ensures SawPv(s0, s, v, Lookup(s.pvs, v.sourceVolume.value.pv))
    ensures SawBackend(s0, s, v, Lookup(s.backends, v.sourceVolume.value.handle))
  {
    hide Inv, KeepsLinks, HelpersRely, WorkloadRely, KeepsGuarded, KeepsData;
    assert ClaimsRely(s0, s) && PvsRely(s0, s);
  }

  lemma KnownIds(s: State, o: Operation, r: Role)
    requires Inv(s) && Confirmed(s, o, r)
    ensures Known(s, o) && o.Vol(r).sourceVolume.value.pv < s.next && o.Vol(r).sourceVolume.value.handle < s.next
  {
  }

  lemma ConfirmedAfter(s: State, s': State, o: Operation, r: Role)
    requires Unsaved(s, s') && Confirmed(s, o, r)
    ensures Confirmed(s', o, r)
  {
  }

  lemma ConfirmedBetween(s: State, s': State, o: Operation, r: Role)
    requires Between(s, s') && Confirmed(s, o, r)
    ensures Confirmed(s', o, r) && Recorded(o.Vol(r)) && IsActive(s')
    ensures o.Vol(r).sourceVolume.value.pv < s.next && o.Vol(r).sourceVolume.value.handle < s.next
  {
    hide Inv, Unsaved, Confirmed, Between;
    BetweenInv(s, s');
    BetweenUnsaved(s, s');
    ConfirmedAfter(s, s', o, r);
    ConfirmedParts(s', o, r);
    KnownIds(s, o, r);
  }

  /** The next request of a call: meanwhile others act, and it may go unanswered. */
  method Pause(w: World, o: Operation, r: Role, ghost s0: State, ghost x: Seen) returns (ok: bool)
    requires w.Valid() && Confirmed(w.s, o, r) && Between(s0, w.s) && Confirmed(s0, o, r)
    modifies w
    ensures w.Valid() && old(w.acts) <= w.acts && Between(old(w.s), w.s) && Between(s0, w.s) && Confirmed(w.s, o, r)
    ensures w.quiet ==> ok && w.s == old(w.s) && w.acts == old(w.acts)
    ensures Recorded(o.Vol(r))
    ensures SawClaim(s0, old(w.s), o.Vol(r), x.claim) ==> SawClaim(s0, w.s, o.Vol(r), x.claim)
    ensures SawPv(s0, old(w.s), o.Vol(r), x.pv) ==> SawPv(s0, w.s, o.Vol(r), x.pv)
    ensures SawBackend(s0, old(w.s), o.Vol(r), x.backend) ==> SawBackend(s0, w.s, o.Vol(r), x.backend)
    ensures SawClaim(s0, w.s, o.Vol(r), Lookup(w.s.claims, o.Vol(r).source.value.name))
    ensures SawPv(s0, w.s, o.Vol(r), Lookup(w.s.pvs, o.Vol(r).sourceVolume.value.pv))
    ensures SawBackend(s0, w.s, o.Vol(r), Lookup(w.s.backends, o.Vol(r).sourceVolume.value.handle))
  {
    hide Inv, Between, Run, SawClaim, SawPv, SawBackend, Confirmed, Lookup;
    ConfirmedParts(w.s, o, r);
    w.Interfere();
    BetweenTrans(s0, old(w.s), w.s);
    ConfirmedBetween(old(w.s), w.s, o, r);
    ConfirmedBetween(s0, w.s, o, r);
    SawStable(s0, old(w.s), w.s, o.Vol(r), x);
    SawNow(s0, w.s, o.Vol(r));
    var fails := w.Fails();
    ok := !fails;
  }

  method ReadRemains(w: World, o: Operation, r: Role) returns (x: Outcome<Seen>)
    requires w.Valid() && Confirmed(w.s, o, r)
    modifies w
    ensures w.Valid() && old(w.acts) <= w.acts && Between(old(w.s), w.s) && Confirmed(w.s, o, r)
    ensures x.Ok? ==> Recorded(o.Vol(r)) && Saw(old(w.s), w.s, o.Vol(r), x.value)
    ensures w.quiet ==> x.Ok? && w.s == old(w.s) && w.acts == old(w.acts) && SeenNow(w.s, o.Vol(r), x.value)
  {
    hide Inv, Between, Run, SawClaim, SawPv, SawBackend, Confirmed, Lookup, Mounted;
    var v := o.Vol(r);
    ghost var s0 := w.s;
    BetweenRefl(s0);
    var none := Seen(None, None, None, false);
    var ok := Pause(w, o, r, s0, none);
    if !ok {
      return Err;
    }
    var claim := Lookup(w.s.claims, v.source.value.name);
    ok := Pause(w, o, r, s0, none.(claim := claim));
    if !ok {
      return Err;
    }
    var pv := Lookup(w.s.pvs, v.sourceVolume.value.pv);
    ok := Pause(w, o, r, s0, none.(claim := claim, pv := pv));
    if !ok {
      return Err;
    }
    var backend := Lookup(w.s.backends, v.sourceVolume.value.handle);
    ok := Pause(w, o, r, s0, Seen(claim, pv, backend, false));
    if !ok {
      return Err;
    }
    return Ok(Seen(claim, pv, backend, Mounted(w.s, v.source.value.name)));
  }

  // ------------------------------------------------------------------------- changing it

  /** The claim that was read is still there, so its volume is too, unchanged. */
  lemma VolumeStays(s0: State, s: State, v: Volume, x: Seen)
    requires Recorded(v) && x.claim.Some? && x.pv.Some? && SawPv(s0, s, v, x.pv)
    requires PvMatches(v.sourceVolume.value.pv, x.pv.value, v.source.value, v.sourceVolume.value)
    requires v.source.value.name in s.claims && s.claims[v.source.value.name].uid == v.source.value.uid
    ensures v.sourceVolume.value.pv in s.pvs
    ensures var pv := s.pvs[v.sourceVolume.value.pv];
            PvMatches(v.sourceVolume.value.pv, pv, v.source.value, v.sourceVolume.value)
            && pv.policyDelete == x.pv.value.policyDelete
  {
  }

  /** Each of the changes leaves less to do. */
  lemma ChangeWorks(s: State, o: Operation, r: Role, d: R.Verdict)
    requires s.op == Some(o) && Recorded(o.Vol(r)) && d in {R.PatchPolicy, R.RemoveClaim, R.RemovePv}
    requires HandlerEnabled(ActionFor(d, r), s)
    requires var l := Left(s, o.Vol(r));
             && (d == R.PatchPolicy ==> l.pv.Some? && !l.pv.value.policyDelete)
             && (d == R.RemoveClaim ==> l.claim.Some? && !l.claim.value.deleting)
             && (d == R.RemovePv ==> l.pv.Some? && !l.pv.value.deleting)
    ensures Todo(HandlerEffect(ActionFor(d, r), s), o.Vol(r)) < Todo(s, o.Vol(r))
  {
    hide PvMatches;
  }

  /** One change; the API refuses it unless the object is still the one that was read. */
  method Change(w: World, o: Operation, r: Role, d: R.Verdict, x: Seen, ghost s0: State) returns (done: Outcome<bool>)
    requires w.Valid() && Confirmed(w.s, o, r)
    requires var v := o.Vol(r);
             && Saw(s0, w.s, v, x)
             && d in {R.PatchPolicy, R.RemoveClaim, R.RemovePv}
             && d == R.Decide(x.claim, x.pv, x.backend, x.mounted, v.source.value, v.sourceVolume.value)
    modifies w
    ensures w.Valid() && Tidy(old(w.s), w.s) && Confirmed(w.s, o, r)
    ensures done.Err? ==> w.s == old(w.s) && w.acts == old(w.acts)
    ensures done.Ok? ==>
              && !done.value && Recorded(o.Vol(r)) && Todo(w.s, o.Vol(r)) < Todo(old(w.s), o.Vol(r))
              && w.acts == old(w.acts) + [ActionFor(d, r)]
              && HandlerEnabled(ActionFor(d, r), old(w.s)) && w.s == HandlerEffect(ActionFor(d, r), old(w.s))
    ensures done.Err? ==>
              && Recorded(o.Vol(r))
              && (Lookup(w.s.claims, o.Vol(r).source.value.name) != x.claim
                  || Lookup(w.s.pvs, o.Vol(r).sourceVolume.value.pv) != x.pv)
  {
    hide Inv, Run, Tidy, HandlerEnabled, HandlerEffect, SawPv, SawBackend, PvMatches, R.Work, Unsaved;
    TidyStart(w.s);
    var v := o.Vol(r);
    var n, p := v.source.value.name, v.sourceVolume.value.pv;
    if d == R.RemoveClaim {
      if n !in w.s.claims || w.s.claims[n] != x.claim.value {
        return Err;
      }
      VolumeStays(s0, w.s, v, x);
      CanDeleteClaim(w.s, o, r);
    } else {
      if p !in w.s.pvs || w.s.pvs[p] != x.pv.value {
        return Err;
      }
      if d == R.PatchPolicy {
        CanPatch(w.s, o, r);
      } else {
        CanDeletePv(w.s, o, r);
      }
    }
    ChangeWorks(w.s, o, r, d);
    ActOn(w, o, r, ActionFor(d, r));
    TidyUnsaved(old(w.s), w.s);
    ConfirmedAfter(old(w.s), w.s, o, r);
    return Ok(false);
  }

  lemma TidyUnsaved(s: State, s': State)
    requires Tidy(s, s')
    ensures Unsaved(s, s') && Shrinks(s, s')
  {
  }

  /** What one undisturbed call does. */
  ghost predicate CallsFor(w: World, s: State, acts: seq<Action>, done: Outcome<bool>, v: Volume, r: Role)
    requires Recorded(v)
    reads w
  {
    var d := Verdict(s, v);
    if d in {R.PatchPolicy, R.RemoveClaim, R.RemovePv} then
      && done == Ok(false) && w.acts == acts + [ActionFor(d, r)]
      && HandlerEnabled(ActionFor(d, r), s) && w.s == HandlerEffect(ActionFor(d, r), s)
    else
      && w.s == s && w.acts == acts
      && done == match d { case Refuse => Err case Done => Ok(true) case _ => Ok(false) }
  }

  /**
   `delete_shrink_claim`: at most one change, to the recorded objects only; true
   only when claim, volume and any recorded backend are gone. False means that there
   is less to do than before, or that it is for Kubernetes to go on; and in a call
   that nobody disturbs, exactly what was decided on what was there.
   */
  method DeleteShrinkClaim(w: World, o: Operation, r: Role) returns (done: Outcome<bool>)
    requires w.Valid() && Confirmed(w.s, o, r)
    modifies w
    ensures w.Valid() && old(w.acts) <= w.acts && Tidy(old(w.s), w.s) && Confirmed(w.s, o, r) && Recorded(o.Vol(r))
    ensures done == Ok(true) ==> SourceGone(w.s, o.Vol(r))
    ensures done == Ok(false) ==> Waits(w.s, o.Vol(r)) || Todo(w.s, o.Vol(r)) < Todo(old(w.s), o.Vol(r))
    ensures Todo(w.s, o.Vol(r)) <= Todo(old(w.s), o.Vol(r))
    ensures w.quiet ==> CallsFor(w, old(w.s), old(w.acts), done, o.Vol(r), r)
  {
    hide Inv, Between, Run, Tidy, KeepsLinks, HandlerEnabled, HandlerEffect, Confirmed, Unsaved, SawPv, SawClaim,
         SawBackend, PvMatches, R.Decide, R.Gone, Mounted, Todo, Waits, Verdict, Shrinks, Lookup, SourceGone,
         SeenNow;
    ConfirmedParts(w.s, o, r);
    var v := o.Vol(r);
    ghost var s0 := w.s;
    TidyStart(s0);
    var x := ReadRemains(w, o, r);
    ConfirmedBetween(s0, w.s, o, r);
    TidyBetween(s0, s0, w.s);
    TodoFalls(s0, w.s, v);
    if x.Err? {
      return Err;
    }
    var d := R.Decide(x.value.claim, x.value.pv, x.value.backend, x.value.mounted,
                      v.source.value, v.sourceVolume.value);
    SeenVerdict(w.s, v, x.value);
    if d == R.Refuse {
      return Err;
    }
    if d == R.Wait {
      WaitsOrLess(s0, w.s, v, x.value);
      return Ok(false);
    }
    if d == R.Done {
      NothingSeen(s0, w.s, v, x.value);
      return Ok(true);
    }
    done := Apply(w, o, r, d, x.value, s0);
  }

  /** Asking for the change, on what the call has read since `s0`. */
  method Apply(w: World, o: Operation, r: Role, d: R.Verdict, x: Seen, ghost s0: State) returns (done: Outcome<bool>)
    requires w.Valid() && Confirmed(w.s, o, r) && Confirmed(s0, o, r) && Between(s0, w.s)
    requires var v := o.Vol(r);
             && Saw(s0, w.s, v, x)
             && d in {R.PatchPolicy, R.RemoveClaim, R.RemovePv}
             && d == R.Decide(x.claim, x.pv, x.backend, x.mounted, v.source.value, v.sourceVolume.value)
    modifies w
    ensures w.Valid() && old(w.acts) <= w.acts && Tidy(s0, w.s) && Confirmed(w.s, o, r) && Recorded(o.Vol(r))
    ensures done != Ok(true)
    ensures Todo(w.s, o.Vol(r)) <= Todo(s0, o.Vol(r))
    ensures done == Ok(false) ==> Todo(w.s, o.Vol(r)) < Todo(s0, o.Vol(r))
    ensures w.quiet && SeenNow(old(w.s), o.Vol(r), x) ==>
              && done == Ok(false) && w.acts == old(w.acts) + [ActionFor(d, r)]
              && HandlerEnabled(ActionFor(d, r), old(w.s)) && w.s == HandlerEffect(ActionFor(d, r), old(w.s))
  {
    hide Inv, Between, Run, Tidy, KeepsLinks, HandlerEnabled, HandlerEffect, Confirmed, Unsaved, SawPv, SawClaim,
         SawBackend, PvMatches, R.Decide, R.Gone, Mounted, Todo, Shrinks, Lookup;
    ConfirmedBetween(s0, w.s, o, r);
    BetweenInv(s0, w.s);
    TidyStart(s0);
    var ok := Pause(w, o, r, s0, x);
    TidyBetween(s0, s0, w.s);
    TodoFalls(s0, w.s, o.Vol(r));
    if !ok {
      return Err;
    }
    ghost var u := w.s;
    done := Change(w, o, r, d, x, s0);
    TidyTrans(s0, u, w.s);
  }

  /** What was seen is what is there. */
  predicate SeenNow(s: State, v: Volume, x: Seen)
    requires Recorded(v)
  {
    && x.claim == Lookup(s.claims, v.source.value.name) && x.pv == Lookup(s.pvs, v.sourceVolume.value.pv)
    && x.backend == Lookup(s.backends, v.sourceVolume.value.handle) && x.mounted == Mounted(s, v.source.value.name)
  }

  /** Undisturbed, the verdict is that on the state itself. */
  lemma SeenVerdict(s: State, v: Volume, x: Seen)
    requires Recorded(v)
    ensures SeenNow(s, v, x) ==>
            R.Decide(x.claim, x.pv, x.backend, x.mounted, v.source.value, v.sourceVolume.value) == Verdict(s, v)
  {
    hide Mounted, PvMatches;
  }

  /** Having to wait, the state is one to wait in, or things have moved on already. */
  lemma WaitsOrLess(s0: State, s: State, v: Volume, x: Seen)
    requires Between(s0, s) && Recorded(v) && Saw(s0, s, v, x)
    requires v.sourceVolume.value.pv < s0.next && v.sourceVolume.value.handle < s0.next
    requires R.Decide(x.claim, x.pv, x.backend, x.mounted, v.source.value, v.sourceVolume.value) == R.Wait
    ensures Waits(s, v) || Todo(s, v) < Todo(s0, v)
  {
    hide Inv, KeepsLinks, HelpersRely, WorkloadRely, KeepsGuarded, KeepsData;
    assert ClaimsRely(s0, s) && PvsRely(s0, s);
  }

  lemma ConfirmedParts(s: State, o: Operation, r: Role)
    requires Confirmed(s, o, r)
    ensures Recorded(o.Vol(r)) && s.op == Some(o) && IsActive(s)
  {
  }

  lemma NothingSeen(s0: State, s: State, v: Volume, x: Seen)
    requires Recorded(v) && Saw(s0, s, v, x)
    requires R.Gone(R.Remains(x.claim, x.pv, x.backend), v.sourceVolume.value)
    ensures SourceGone(s, v)
  {
  }

  /** Why a role cannot be reclaimed: its replacement is not bound and in order, or what is left is not the source. */
  predicate CannotReclaim(s: State, o: Operation, r: Role) {
    var v := o.Vol(r);
    && v.target.Some?
    && (|| !v.verified || v.destination.None? || s.ws.Bound(r) != v.destination
        || Wrong(s, v.destination.value, true)
        || !Recorded(v) || v.source.value.uid == v.destination.value.uid
        || Verdict(s, v) == R.Refuse)
  }

  /** There is less left of a source, or what is left waits for Kubernetes. */
  predicate Advanced(s: State, s': State, o: Operation, r: Role) {
    var v := o.Vol(r);
    v.target.Some? && Recorded(v) && (Waits(s', v) || Todo(s', v) < Todo(s, v))
  }

  /** Nothing happened, or one change to this role's source. */
  ghost predicate Touched(s: State, s': State, r: Role) {
    || s' == s
    || exists d :: d in {R.PatchPolicy, R.RemoveClaim, R.RemovePv}
                   && HandlerEnabled(ActionFor(d, r), s) && s' == HandlerEffect(ActionFor(d, r), s)
  }

  lemma CallTouches(w: World, s: State, acts: seq<Action>, done: Outcome<bool>, v: Volume, r: Role)
    requires Recorded(v) && CallsFor(w, s, acts, done, v, r)
    ensures Touched(s, w.s, r)
    ensures done.Err? ==> w.s == s && Verdict(s, v) == R.Refuse
  {
    hide HandlerEnabled, HandlerEffect, Verdict;
  }

  /** Work on one role takes nothing back from the other. */
  lemma OtherRoleStays(s: State, s': State, o: Operation, r: Role, q: Role)
    requires s.op == Some(o) && Shape(o) && Touched(s, s', r) && q != r && Recorded(o.Vol(q))
    ensures Todo(s', o.Vol(q)) <= Todo(s, o.Vol(q)) && (Waits(s, o.Vol(q)) ==> Waits(s', o.Vol(q)))
  {
    hide HandlerEnabled, HandlerEffect, Todo, Waits, Shape;
    if s' != s {
      var d :| d in {R.PatchPolicy, R.RemoveClaim, R.RemovePv}
               && HandlerEnabled(ActionFor(d, r), s) && s' == HandlerEffect(ActionFor(d, r), s);
      if o.Vol(r).source.Some? {
        DifferentNames(o, r, q);
      }
      TouchLeaves(s, o, r, q, d);
    }
  }

  lemma DifferentNames(o: Operation, r: Role, q: Role)
    requires Shape(o) && q != r && o.Vol(r).source.Some? && o.Vol(q).source.Some?
    ensures o.Vol(r).source.value.name != o.Vol(q).source.value.name
  {
    hide VolumeShape, SizeNoted;
  }

  lemma TouchLeaves(s: State, o: Operation, r: Role, q: Role, d: R.Verdict)
    requires s.op == Some(o) && Recorded(o.Vol(q)) && d in {R.PatchPolicy, R.RemoveClaim, R.RemovePv}
    requires HandlerEnabled(ActionFor(d, r), s)
    requires o.Vol(r).source.Some? ==> o.Vol(r).source.value.name != o.Vol(q).source.value.name
    ensures var s' := HandlerEffect(ActionFor(d, r), s);
            Todo(s', o.Vol(q)) <= Todo(s, o.Vol(q)) && (Waits(s, o.Vol(q)) ==> Waits(s', o.Vol(q)))
  {
  }

  /** `reclaim_shrink_sources`, for one role. */
  method ReclaimSource(w: World, o: Operation, r: Role) returns (done: Outcome<bool>)
    requires w.Valid() && Reclaims(w.s, o)
    modifies w
    ensures w.Valid() && old(w.acts) <= w.acts && Tidy(old(w.s), w.s)
    ensures done == Ok(true) && o.Vol(r).target.Some? ==> SourceGone(w.s, o.Vol(r))
    ensures w.quiet ==>
              && Touched(old(w.s), w.s, r)
              && (done.Err? ==> CannotReclaim(w.s, o, r))
              && (done == Ok(false) ==> Advanced(old(w.s), w.s, o, r))
  {
    hide Inv, Between, Run, Tidy, KeepsLinks, SourceGone, Unsaved, CallsFor, Verdict, Waits, Todo, Wrong, Touched;
    TidyStart(w.s);
    Untouched(w.s, r);
    var v := o.Vol(r);
    if v.target.None? {
      return Ok(true);
    }
    if !v.verified || v.destination.None? || w.s.ws.Bound(r) != v.destination {
      return Err;
    }
    var claim := ReadClaim(w, v.destination.value, true);
    TidyBetween(old(w.s), old(w.s), w.s);
    BetweenUnsaved(old(w.s), w.s);
    SameOperation(old(w.s), w.s);
    if claim.Err? || v.source.None? || v.source.value.uid == v.destination.value.uid || v.sourceVolume.None? {
      return Err;
    }
    ghost var t, acts := w.s, w.acts;
    done := DeleteShrinkClaim(w, o, r);
    TidyTrans(old(w.s), t, w.s);
    if w.quiet {
      CallTouches(w, t, acts, done, v, r);
    }
  }

  lemma Untouched(s: State, r: Role)
    ensures Touched(s, s, r)
  {
  }

  /**
   `reclaim_shrink_sources`: true only once nothing is left of any targeted source;
   undisturbed, false means that one of them has got on, and an error that one of
   them cannot be reclaimed.
   */
  method ReclaimSources(w: World, o: Operation) returns (done: Outcome<bool>)
    requires w.Valid() && Reclaims(w.s, o)
    modifies w
    ensures w.Valid() && old(w.acts) <= w.acts && Unsaved(old(w.s), w.s)
    ensures done == Ok(true) ==> SourcesGone(w.s, o)
    ensures w.quiet ==>
              && (done.Err? ==> exists r: Role :: CannotReclaim(w.s, o, r))
              && (done == Ok(false) ==> exists r: Role :: Advanced(old(w.s), w.s, o, r))
  {
    hide Inv, Run, Tidy, SourceGone, Unsaved, Shrinks, CannotReclaim, Advanced, Touched;
    ghost var s := w.s;
    var home := ReclaimSource(w, o, Home);
    TidyUnsaved(s, w.s);
    SameOperation(s, w.s);
    if home.Err? {
      return Err;
    }
    ghost var t := w.s;
    var temporary := ReclaimSource(w, o, Temporary);
    TidyUnsaved(t, w.s);
    UnsavedTrans(s, t, w.s);
    if temporary.Err? {
      return Err;
    }
    InvKnown(t, o);
    if home.value && o.home.target.Some? {
      StaysRemoved(t, w.s, o, Home);
    }
    if w.quiet {
      InvKnown(s, o);
      EitherAdvanced(s, t, w.s, o, home.value, temporary.value);
    }
    return Ok(home.value && temporary.value);
  }

  lemma EitherAdvanced(s: State, t: State, u: State, o: Operation, home: bool, temporary: bool)
    requires s.op == t.op == Some(o) && Shape(o) && Touched(s, t, Home) && Touched(t, u, Temporary)
    requires !home ==> Advanced(s, t, o, Home)
    requires !temporary ==> Advanced(t, u, o, Temporary)
    ensures !home ==> Advanced(s, u, o, Home)
    ensures !temporary ==> Advanced(s, u, o, Temporary)
  {
    hide Todo, Waits, Shape, Touched;
    if !home {
      OtherRoleStays(t, u, o, Temporary, Home);
    }
    if !temporary {
      OtherRoleStays(s, t, o, Home, Temporary);
    }
  }

  lemma InvKnown(s: State, o: Operation)
    requires Inv(s) && s.op == Some(o)
    ensures Known(s, o) && Shape(o)
  {
  }
}
