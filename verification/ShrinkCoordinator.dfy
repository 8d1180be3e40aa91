/**
 The cluster half of a shrink: what each coordinator call reads, checks and
 changes. Whatever others do between its API calls, a positive answer means the
 fact the handler goes on to save.
 */
module ShrinkCoordinator {
  import opened Options
  import opened ShrinkTypes
  import opened ShrinkStore
  import opened ShrinkCluster
  import opened ShrinkReclaim
  import opened ShrinkProtocol
  import opened ShrinkInvariant
  import opened ShrinkRely
  import opened ShrinkRuns
  import opened ShrinkWorld

  /** The row and every record of the operation are as before; only the cluster moved. */
  ghost predicate Unsaved(s: State, s': State) {
    && s'.op == s.op && s'.ws == s.ws && s'.committed == s.committed && KeepsLinks(s, s')
  }

  lemma BetweenUnsaved(s: State, s': State)
    requires Between(s, s')
    ensures Unsaved(s, s') && Rely(s, s')
  {
  }

  lemma UnsavedTrans(s: State, t: State, u: State)
    requires Unsaved(s, t) && Unsaved(t, u)
    ensures Unsaved(s, u)
  {
  }

  /** No claim appeared, and the StatefulSet neither appeared nor went. */
  ghost predicate Fewer(s: State, s': State) {
    (forall n :: n in s'.claims ==> n in s.claims) && s'.workload.Some? == s.workload.Some?
  }

  lemma BetweenFewer(s: State, s': State)
    requires Between(s, s')
    ensures Fewer(s, s') && HelpersRely(s, s')
  {
    assert ClaimsRely(s, s') && WorkloadRely(s, s');
  }

  lemma FewerTrans(s: State, t: State, u: State)
    requires Fewer(s, t) && Fewer(t, u)
    ensures Fewer(s, u)
  {
  }

  /** The recorded claim is not there, or not as recorded. */
  predicate Wrong(s: State, b: Binding, bound: bool) {
    !(b.name in s.claims && ClaimMatches(s.claims[b.name], b, bound))
  }

  predicate SourceWrong(s: State, o: Operation, r: Role) {
    o.Vol(r).source.Some? && Wrong(s, o.Vol(r).source.value, true)
  }

  /** `shrink_claim`: the recorded claim was there, unchanged. */
  method ReadClaim(w: World, b: Binding, bound: bool) returns (claim: Outcome<Claim>)
    requires w.Valid() && IsActive(w.s)
    modifies w
    ensures w.Valid() && IsActive(w.s) && old(w.acts) <= w.acts && Between(old(w.s), w.s)
    ensures claim.Ok? ==>
              b.name in w.s.claims && w.s.claims[b.name] == claim.value && ClaimMatches(claim.value, b, bound)
    ensures w.quiet ==> w.s == old(w.s) && w.acts == old(w.acts) && (claim.Err? <==> Wrong(w.s, b, bound))
  {
    hide Inv, Between, Run;
    w.Interfere();
    var fails := w.Fails();
    if fails {
      return Err;
    }
    if b.name in w.s.claims && ClaimMatches(w.s.claims[b.name], b, bound) {
      return Ok(w.s.claims[b.name]);
    }
    return Err;
  }

  // ------------------------------------------------------------ retaining the sources

  /** The controller has seen a Retain policy, so it gives no claim a new owner. */
  ghost predicate Retained(s: State) {
    s.workload.Some? ==> s.workload.value.spec.retain && s.workload.value.observed.retain
  }

  ghost predicate SourceHeld(s: State, o: Operation, r: Role) {
    o.Vol(r).source.Some? ==>
      Solid(s, o.Vol(r).source.value) && Unownable(s, o.Vol(r).source.value.name)
  }

  /** The controller has yet to see the StatefulSet's latest specification. */
  predicate Unobserved(s: State) {
    s.workload.Some? && s.workload.value.observedGeneration < s.workload.value.generation
  }

  lemma RetainStable(s: State, s': State, o: Operation)
    requires Between(s, s')
    ensures Retained(s) ==> Retained(s')
    ensures forall r: Role :: SourceHeld(s, o, r) ==> SourceHeld(s', o, r)
  {
    assert WorkloadRely(s, s') && ClaimsRely(s, s');
    forall r: Role | SourceHeld(s, o, r) ensures SourceHeld(s', o, r) {
      if o.Vol(r).source.Some? {
        assert Guarded(s, o.Vol(r).source.value.name);
      }
    }
  }

  lemma OwnerReleased(s: State, o: Operation, r: Role)
    requires s.op == Some(o) && o.phase == Queued && Retained(s)
    requires o.Vol(r).source.Some? && o.Vol(r).source.value.name in s.claims
    requires ClaimMatches(s.claims[o.Vol(r).source.value.name], o.Vol(r).source.value, true)
    ensures HandlerEnabled(ReleaseOwner(r), s)
    ensures var s' := HandlerEffect(ReleaseOwner(r), s);
            && Retained(s') && s'.op == s.op && s'.ws == s.ws && s'.committed == s.committed
            && SourceHeld(s', o, r) && forall q: Role :: SourceHeld(s, o, q) ==> SourceHeld(s', o, q)
  {
  }

  lemma NoSource(s: State, o: Operation, r: Role)
    requires o.Vol(r).source.None?
    ensures SourceHeld(s, o, r)
  {
  }

  method ReleaseOwners(w: World, o: Operation, r: Role) returns (ok: bool)
    requires w.Valid() && w.s.op == Some(o) && o.phase == Queued && Retained(w.s)
    modifies w
    ensures w.Valid() && old(w.acts) <= w.acts && Unsaved(old(w.s), w.s) && Retained(w.s)
    ensures ok ==> SourceHeld(w.s, o, r)
    ensures forall q: Role :: SourceHeld(old(w.s), o, q) ==> SourceHeld(w.s, o, q)
    ensures w.quiet && !ok ==> SourceWrong(w.s, o, r)
  {
    hide Inv, Between, Run, KeepsLinks, HandlerEnabled, HandlerEffect, SourceHeld, Retained, ClaimMatches, Wrong;
    if o.Vol(r).source.None? {
      NoSource(w.s, o, r);
      BetweenRefl(w.s);
      BetweenUnsaved(w.s, w.s);
      return true;
    }
    var b := o.Vol(r).source.value;
    var claim := ReadClaim(w, b, true);
    RetainStable(old(w.s), w.s, o);
    BetweenUnsaved(old(w.s), w.s);
    if claim.Err? {
      return false;
    }
    ghost var t := w.s;
    w.Interfere();
    RetainStable(t, w.s, o);
    BetweenUnsaved(t, w.s);
    UnsavedTrans(old(w.s), t, w.s);
    var fails := w.Fails();
    if fails {
      return false;
    }
    // the patch names the UID and the resource version that were read
    if b.name !in w.s.claims || w.s.claims[b.name] != claim.value {
      return false;
    }
    ghost var u := w.s;
    OwnerReleased(w.s, o, r);
    w.Do(ReleaseOwner(r));
    UnsavedTrans(old(w.s), u, w.s);
    return true;
  }

  lemma SeenRetained(s: State)
    requires WorkloadOk(s)
    requires s.workload.Some? ==>
               s.workload.value.spec.retain && s.workload.value.observedGeneration >= s.workload.value.generation
    ensures Retained(s)
    ensures s.workload.Some? && s.workload.value.spec.replicas == 0 ==> NoReplicas(s)
  {
  }

  lemma AskedToRetain(s: State)
    requires IsActive(s) && s.workload.Some? && WorkloadOk(s)
    ensures HandlerEnabled(RequestRetain, s)
    ensures var s' := HandlerEffect(RequestRetain, s);
            s'.op == s.op && s'.ws == s.ws && s'.committed == s.committed && s'.helpers == s.helpers
            && Fewer(s, s') && Unobserved(s')
  {
  }

  method AskToRetain(w: World) returns (ok: bool)
    requires w.Valid() && IsActive(w.s) && w.s.workload.Some?
    modifies w
    ensures ok ==> w.Just(RequestRetain) && Unobserved(w.s)
    ensures w.quiet ==> ok
    ensures w.Valid() && old(w.acts) <= w.acts && Unsaved(old(w.s), w.s)
    ensures HelpersRely(old(w.s), w.s) && Fewer(old(w.s), w.s)
  {
    hide Inv, Between, Run, KeepsLinks, HandlerEnabled, HandlerEffect, HelpersRely, Fewer;
    w.Interfere();
    BetweenUnsaved(old(w.s), w.s);
    BetweenFewer(old(w.s), w.s);
    ghost var t := w.s;
    var fails := w.Fails();
    if fails {
      return false;
    }
    InvWorkload(w.s);
    AskedToRetain(w.s);
    w.Do(RequestRetain);
    UnsavedTrans(old(w.s), t, w.s);
    SavedHelpers(old(w.s), t, w.s);
    FewerTrans(old(w.s), t, w.s);
    return true;
  }

  /**
   `retain_shrink_sources`: true only once no deletion and no garbage collection
   can reach either source.
   */
  method RetainSources(w: World, o: Operation) returns (r: Outcome<bool>)
    requires w.Valid() && w.s.op == Some(o) && o.phase == Queued
    modifies w
    ensures w.Valid() && old(w.acts) <= w.acts && Unsaved(old(w.s), w.s)
    ensures r == Ok(true) ==> forall q: Role :: SourceHeld(w.s, o, q)
    ensures r == Ok(false) ==> Unobserved(w.s)
    ensures w.quiet && r.Err? ==> exists q: Role :: SourceWrong(w.s, o, q)
  {
    hide Inv, Between, Run, KeepsLinks, SourceHeld, Retained, Unsaved, NoReplicas, HelpersRely, Fewer, SourceWrong;
    w.Interfere();
    BetweenUnsaved(old(w.s), w.s);
    SameOperation(old(w.s), w.s);
    ghost var t := w.s;
    var fails := w.Fails();
    if fails {
      return Err;
    }
    if w.s.workload.Some? {
      if !w.s.workload.value.spec.retain {
        var asked := AskToRetain(w);
        UnsavedTrans(old(w.s), t, w.s);
        return if asked then Ok(false) else Err;
      }
      if w.s.workload.value.observedGeneration < w.s.workload.value.generation {
        return Ok(false);
      }
    }
    InvWorkload(w.s);
    SeenRetained(w.s);
    var ok := ReleaseOwners(w, o, Home);
    UnsavedTrans(old(w.s), t, w.s);
    ghost var u := w.s;
    SameOperation(t, w.s);
    if !ok {
      return Err;
    }
    ok := ReleaseOwners(w, o, Temporary);
    UnsavedTrans(old(w.s), u, w.s);
    if !ok {
      return Err;
    }
    BothRoles(w.s, o);
    return Ok(true);
  }

  lemma SameOperation(s: State, s': State)
    requires Unsaved(s, s')
    ensures s'.op == s.op && s'.ws == s.ws && s'.committed == s.committed
  {
  }

  lemma InvWorkload(s: State)
    requires Inv(s)
    ensures WorkloadOk(s)
  {
  }

  lemma BothRoles(s: State, o: Operation)
    requires SourceHeld(s, o, Home) && SourceHeld(s, o, Temporary)
    ensures forall q: Role :: SourceHeld(s, o, q)
  {
  }

  // --------------------------------------------------------------- stopping the workload

  ghost predicate NoReplicas(s: State) {
    s.workload.Some? ==> s.workload.value.spec.replicas == 0 && s.workload.value.observed.replicas == 0
  }

  /** The claims a migration reads or writes. */
  function MigrationClaims(o: Operation): set<ClaimName> {
    (if o.home.source.Some? then {o.home.source.value.name} else {})
    + (if o.home.destination.Some? then {o.home.destination.value.name} else {})
    + (if o.temporary.source.Some? then {o.temporary.source.value.name} else {})
    + (if o.temporary.destination.Some? then {o.temporary.destination.value.name} else {})
  }

  predicate ForeignMount(s: State, o: Operation) {
    exists k :: k in s.others && s.others[k] * MigrationClaims(o) != {}
  }

  /**
   `migration_claims_detached`: true only when no workspace Pod exists and no Pod
   but this migration's helpers mounts any of its claims.
   */
  method ClaimsDetached(w: World, o: Operation) returns (r: Outcome<bool>)
    requires w.Valid() && w.s.op == Some(o) && IsActive(w.s)
    modifies w
    ensures w.Valid() && IsActive(w.s) && old(w.acts) <= w.acts && Between(old(w.s), w.s)
    ensures r == Ok(true) ==>
              && w.s.work.None? && !ForeignMount(w.s, o)
              && forall h :: h in w.s.helpers ==> h.op == o.id
    ensures r == Ok(false) ==> w.s.work.Some? || exists h :: h in w.s.helpers && h.op != o.id
    ensures w.quiet ==> w.s == old(w.s) && (r.Err? ==> ForeignMount(w.s, o))
  {
    hide Inv, Between, Run, MigrationClaims;
    w.Interfere();
    var fails := w.Fails();
    if fails {
      return Err;
    }
    var mine := w.s.work.Some? || exists h :: h in w.s.helpers && h.op != o.id;
    var foreign := ForeignMount(w.s, o);
    if foreign {
      // whichever Pod the list shows first decides
      if * {
        return Err;
      }
      return if mine then Ok(false) else Err;
    }
    return Ok(!mine);
  }

  /** The garbage collector could still take the source. */
  predicate SourceOwned(s: State, o: Operation, r: Role) {
    && o.Vol(r).source.Some? && o.Vol(r).source.value.name in s.claims
    && s.claims[o.Vol(r).source.value.name].gcOwned
  }

  method CheckSource(w: World, o: Operation, r: Role) returns (ok: bool)
    requires w.Valid() && IsActive(w.s) && Retained(w.s)
    modifies w
    ensures w.Valid() && IsActive(w.s) && old(w.acts) <= w.acts && Between(old(w.s), w.s)
    ensures ok ==> SourceHeld(w.s, o, r)
    ensures w.quiet ==> w.s == old(w.s) && (!ok ==> SourceWrong(w.s, o, r) || SourceOwned(w.s, o, r))
  {
    hide Inv, Between, Run;
    if o.Vol(r).source.None? {
      BetweenRefl(w.s);
      return true;
    }
    var claim := ReadClaim(w, o.Vol(r).source.value, true);
    RetainStable(old(w.s), w.s, o);
    return claim.Ok? && !claim.value.gcOwned;
  }

  lemma StopStable(s: State, s': State, o: Operation)
    requires Between(s, s')
    ensures NoReplicas(s) ==> NoReplicas(s')
    ensures Offline(s) ==> Offline(s')
    ensures s'.workload.Some? == s.workload.Some?
    ensures s.workload.Some? ==> s'.workload.value.spec == s.workload.value.spec
  {
  }

  lemma AskedToStop(s: State, o: Operation)
    requires s.op == Some(o) && o.phase in {Stopping, Switching, RollingBack}
    requires s.workload.Some? && WorkloadOk(s) && Retained(s) && forall q: Role :: SourceHeld(s, o, q)
    ensures HandlerEnabled(RequestStop, s)
    ensures var s' := HandlerEffect(RequestStop, s);
            s'.op == s.op && s'.ws == s.ws && s'.committed == s.committed && s'.helpers == s.helpers
            && Fewer(s, s') && Unobserved(s')
  {
    forall r: Role | o.Vol(r).source.Some? ensures Solid(s, o.Vol(r).source.value) {
      assert SourceHeld(s, o, r);
    }
  }

  method AskToStop(w: World, o: Operation) returns (ok: bool)
    requires w.Valid() && w.s.op == Some(o) && o.phase in {Stopping, Switching, RollingBack}
    requires w.s.workload.Some? && Retained(w.s) && forall q: Role :: SourceHeld(w.s, o, q)
    modifies w
    ensures ok ==> w.Just(RequestStop) && Unobserved(w.s)
    ensures w.quiet ==> ok
    ensures w.Valid() && old(w.acts) <= w.acts && Unsaved(old(w.s), w.s)
    ensures HelpersRely(old(w.s), w.s) && Fewer(old(w.s), w.s)
  {
    hide Inv, Between, Run, KeepsLinks, HandlerEnabled, HandlerEffect, HelpersRely, SourceHeld, Retained,
         NoReplicas, Offline, Fewer;
    w.Interfere();
    BetweenUnsaved(old(w.s), w.s);
    RetainStable(old(w.s), w.s, o);
    StopStable(old(w.s), w.s, o);
    BetweenFewer(old(w.s), w.s);
    ghost var t := w.s;
    var fails := w.Fails();
    if fails {
      return false;
    }
    InvWorkload(w.s);
    AskedToStop(w.s, o);
    w.Do(RequestStop);
    UnsavedTrans(old(w.s), t, w.s);
    SavedHelpers(old(w.s), t, w.s);
    FewerTrans(old(w.s), t, w.s);
    return true;
  }

  /** Every retained source is seen, unowned, before the workload may be stopped. */
  method CheckSources(w: World, o: Operation) returns (ok: bool)
    requires w.Valid() && IsActive(w.s) && Retained(w.s)
    modifies w
    ensures w.Valid() && IsActive(w.s) && old(w.acts) <= w.acts && Between(old(w.s), w.s) && Retained(w.s)
    ensures ok ==> forall q: Role :: SourceHeld(w.s, o, q)
    ensures w.quiet ==> w.s == old(w.s)
    ensures w.quiet && !ok ==> exists q: Role :: SourceWrong(w.s, o, q) || SourceOwned(w.s, o, q)
  {
    hide Inv, Between, Run, SourceHeld, Retained, SourceWrong, SourceOwned;
    ok := CheckSource(w, o, Home);
    RetainStable(old(w.s), w.s, o);
    if !ok {
      return;
    }
    ghost var t := w.s;
    ok := CheckSource(w, o, Temporary);
    RetainStable(t, w.s, o);
    BetweenTrans(old(w.s), t, w.s);
    if ok {
      BothRoles(w.s, o);
    }
  }

  /** Why stopping has to wait: the controller has yet to see the last request, or the Pod is still there. */
  predicate StillStopping(s: State) { Unobserved(s) || s.work.Some? }

  /** Why it cannot go on: a source is not as recorded, or somebody else uses a claim. */
  predicate CannotStop(s: State, o: Operation) {
    || ForeignMount(s, o)
    || (s.workload.Some? && exists q: Role :: SourceWrong(s, o, q) || SourceOwned(s, o, q))
  }

  lemma OnlyOurs(s: State, o: Operation)
    requires Inv(s) && (s.op.Some? ==> s.op.value.id == o.id)
    ensures forall h :: h in s.helpers ==> h.op == o.id
  {
    assert forall h :: h in s.helpers ==> HelperOk(s, h);
  }

  /**
   `stop_for_storage_shrink`: true only once no workspace Pod runs or can be
   started; with a StatefulSet left, only while every source is still there.
   */
  method StopWorkload(w: World, o: Operation) returns (r: Outcome<bool>)
    requires w.Valid() && w.s.op == Some(o) && o.phase in {Stopping, Switching, RollingBack}
    modifies w
    ensures w.Valid() && old(w.acts) <= w.acts && Unsaved(old(w.s), w.s)
    ensures HelpersRely(old(w.s), w.s) && Fewer(old(w.s), w.s)
    ensures r == Ok(true) ==> Offline(w.s) && !ForeignMount(w.s, o)
    ensures r == Ok(true) && w.s.workload.Some? ==> forall q: Role :: SourceHeld(w.s, o, q)
    ensures r == Ok(false) ==> StillStopping(w.s)
    ensures w.quiet && r.Err? ==> CannotStop(w.s, o)
  {
    hide Inv, Between, Run, KeepsLinks, SourceHeld, Retained, HelpersRely, ForeignMount, Fewer, SourceWrong,
         SourceOwned;
    w.Interfere();
    BetweenUnsaved(old(w.s), w.s);
    BetweenFewer(old(w.s), w.s);
    ghost var t := w.s;
    var fails := w.Fails();
    if fails {
      return Err;
    }
    if w.s.workload.Some? {
      var seen := w.s.workload.value;
      if !seen.spec.retain {
        var asked := AskToRetain(w);
        UnsavedTrans(old(w.s), t, w.s);
        HelpersTrans(old(w.s), t, w.s);
        FewerTrans(old(w.s), t, w.s);
        return if asked then Ok(false) else Err;
      }
      if seen.observedGeneration < seen.generation {
        return Ok(false);
      }
      InvWorkload(w.s);
      SeenRetained(w.s);
      var ok := CheckSources(w, o);
      Onward(old(w.s), t, w.s);
      StopStable(t, w.s, o);
      if !ok {
        return Err;
      }
      if seen.spec.replicas != 0 {
        ghost var u := w.s;
        var asked := AskToStop(w, o);
        UnsavedTrans(old(w.s), u, w.s);
        HelpersTrans(old(w.s), u, w.s);
        FewerTrans(old(w.s), u, w.s);
        return if asked then Ok(false) else Err;
      }
    }
    ghost var v := w.s;
    r := ClaimsDetached(w, o);
    Onward(old(w.s), v, w.s);
    OnlyOurs(w.s, o);
    StopStable(v, w.s, o);
    RetainStable(v, w.s, o);
  }

  lemma HelpersTrans(s: State, t: State, u: State)
    requires HelpersRely(s, t) && HelpersRely(t, u)
    ensures HelpersRely(s, u)
  {
  }

  lemma Onward(s: State, t: State, u: State)
    requires Unsaved(s, t) && HelpersRely(s, t) && Fewer(s, t) && Between(t, u)
    ensures Unsaved(s, u) && HelpersRely(s, u) && Fewer(s, u) && u.op == t.op
  {
    BetweenUnsaved(t, u);
    BetweenFewer(t, u);
    UnsavedTrans(s, t, u);
    HelpersTrans(s, t, u);
    FewerTrans(s, t, u);
  }
}
