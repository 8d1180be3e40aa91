/**
 Discovering the sources, requesting replacement claims, and running and removing
 the helper Pods that measure, copy and verify.
 */
module ShrinkHelpers {
  import opened Options
  import opened ShrinkTypes
  import opened ShrinkStore
  import opened ShrinkCluster
  import opened ShrinkProtocol
  import opened ShrinkInvariant
  import opened ShrinkRely
  import opened ShrinkRuns
  import opened ShrinkWorld
  import opened ShrinkCoordinator

  // --------------------------------------------------- fields that carry no evidence

  /** The records differ at most in times, error text, helper UIDs and, while queued, original sizes. */
  ghost predicate SameButSizes(o: Operation, o': Operation) {
    && o'.id == o.id && o'.phase == o.phase && o'.home == o.home && o'.temporary == o.temporary
    && o'.resume == o.resume && o'.reclaimSource == o.reclaimSource && o'.switched == o.switched
    && (o.phase != Queued ==> o'.originalHome == o.originalHome && o'.originalTemporary == o.originalTemporary)
    && (o.error ==> o'.error) && (o.phase in {Completed, Reclaiming} && o.reclaimable ==> o'.reclaimable)
  }

  ghost predicate SameFacts(o: Operation, o': Operation) {
    SameButSizes(o, o') && o'.originalHome == o.originalHome && o'.originalTemporary == o.originalTemporary
  }

  lemma SameVolumes(s: State, o: Operation, o': Operation)
    requires SameButSizes(o, o')
    ensures forall r: Role :: o'.Vol(r) == o.Vol(r)
    ensures SourcesNamed(s, o') == SourcesNamed(s, o) && SourcesHeld(s, o') == SourcesHeld(s, o)
    ensures DestinationsHeld(s, o') == DestinationsHeld(s, o) && SourcesGone(s, o') == SourcesGone(s, o)
    ensures Twins(s, o') == Twins(s, o)
  {
    assert forall r: Role :: o'.Vol(r) == o.Vol(r);
  }

  lemma EvidenceIgnores(s: State, o: Operation, o': Operation)
    requires SameButSizes(o, o') && Evidence(s, o)
    ensures Evidence(s, o')
  {
    hide SourcesNamed, SourcesHeld, DestinationsHeld, SourcesGone, Twins, Audited, Known, NoCopyRunning;
    SameVolumes(s, o, o');
    SameRecords(s, o, o');
  }

  lemma CommitIgnores(s: State, o: Operation, o': Operation)
    requires SameButSizes(o, o') && CommitOk(s, o)
    ensures CommitOk(s, o')
  {
    assert forall r: Role :: o'.Vol(r) == o.Vol(r);
  }

  lemma LinkedIgnores(s: State, o: Operation, o': Operation)
    requires Linked(s, o) && SameButSizes(o, o')
    ensures Linked(s, o')
  {
    hide Evidence, CommitOk;
    EvidenceIgnores(s, o, o');
    CommitIgnores(s, o, o');
  }

  // ------------------------------------------------------------------ volume identities

  /** The identity is the one of the volume behind the recorded claim. */
  ghost predicate Identifies(s: State, b: Binding, i: Identity) {
    && Sole(s, i)
    && (b.name in s.claims ==> s.claims[b.name].uid == b.uid && s.claims[b.name].volume == Some(i.pv))
    && (i.pv in s.pvs ==> PvMatches(i.pv, s.pvs[i.pv], b, i))
  }

  lemma IdentifiesStable(s: State, s': State, b: Binding, i: Identity)
    requires Between(s, s') && Identifies(s, b, i)
    ensures Identifies(s', b, i)
  {
    hide Inv;
    assert ClaimsRely(s, s') && PvsRely(s, s');
  }

  lemma NewIdentity(s: State, b: Binding, i: Identity, n: nat)
    requires Inv(s) && n in s.pvs && i.pv == n && PvMatches(n, s.pvs[n], b, i)
    requires b.name in s.claims ==> s.claims[b.name].uid == b.uid && s.claims[b.name].volume == Some(n)
    ensures Identifies(s, b, i)
  {
  }

  lemma ClaimStays(s: State, s': State, b: Binding)
    requires Between(s, s') && b.name in s.claims && s.claims[b.name].volume.Some? && s.claims[b.name].uid == b.uid
    ensures b.name in s'.claims ==>
              s'.claims[b.name].uid == b.uid && s'.claims[b.name].volume == s.claims[b.name].volume
  {
    hide Inv;
    assert ClaimsRely(s, s');
  }

  /** The volume behind a claim has no identity to record: another storage class, or no backend. */
  predicate Unidentified(s: State, b: Binding) {
    || Wrong(s, b, true)
    || (var claim := s.claims[b.name];
        claim.volume.value in s.pvs &&
        var pv := s.pvs[claim.volume.value];
        pv.storageClass != claim.storageClass || (pv.driver.Longhorn? && pv.handle !in s.backends))
  }

  lemma PvOfClaim(s: State, b: Binding)
    requires Inv(s) && !Wrong(s, b, true)
    ensures s.claims[b.name].volume.value in s.pvs
    ensures var n := s.claims[b.name].volume.value;
            var pv := s.pvs[n];
            forall l :: pv.storageClass == s.claims[b.name].storageClass ==>
              PvMatches(n, pv, b, Identity(n, pv.uid, pv.driver, pv.handle, s.claims[b.name].storageClass, l))
  {
    hide WorkloadOk, UserDataSafe, HelpersOk, OpOk;
  }

  /** `shrink_volume_identity`. */
  method VolumeIdentity(w: World, b: Binding) returns (r: Outcome<Identity>)
    requires w.Valid() && IsActive(w.s)
    modifies w
    ensures w.Valid() && IsActive(w.s) && old(w.acts) <= w.acts && Between(old(w.s), w.s)
    ensures r.Ok? ==> Identifies(w.s, b, r.value) && (r.value.driver.Longhorn? ==> r.value.longhorn.Some?)
    ensures w.quiet ==> w.s == old(w.s) && w.acts == old(w.acts) && (r.Err? ==> Unidentified(w.s, b))
  {
    hide Inv, Between, Run, Identifies, PvMatches;
    var claim := ReadClaim(w, b, true);
    if claim.Err? {
      return Err;
    }
    var n := claim.value.volume.value;
    ghost var t := w.s;
    if w.quiet {
      PvOfClaim(t, b);
    }
    w.Interfere();
    ClaimStays(t, w.s, b);
    BetweenTrans(old(w.s), t, w.s);
    if n !in w.s.pvs {
      return Err;
    }
    var pv := w.s.pvs[n];
    // the storage class must exist and be served by the volume's driver
    var fails := w.Fails();
    if fails {
      return Err;
    }
    var i := Identity(n, pv.uid, pv.driver, pv.handle, claim.value.storageClass, None);
    if !PvMatches(n, pv, b, i) {
      return Err;
    }
    if !pv.driver.Longhorn? {
      NewIdentity(w.s, b, i, n);
      return Ok(i);
    }
    ghost var u := w.s;
    NewIdentity(u, b, i, n);
    w.Interfere();
    IdentifiesStable(u, w.s, b, i);
    BetweenTrans(old(w.s), u, w.s);
    if pv.handle !in w.s.backends {
      return Err;
    }
    WithBackend(w.s, b, i, w.s.backends[pv.handle]);
    return Ok(i.(longhorn := Some(w.s.backends[pv.handle])));
  }

  lemma WithBackend(s: State, b: Binding, i: Identity, uid: nat)
    requires Identifies(s, b, i)
    ensures Identifies(s, b, i.(longhorn := Some(uid)))
  {
  }

  // ----------------------------------------------------------------- removing helpers

  lemma HelperDeletable(s: State, o: Operation, h: HelperName)
    requires s.op == Some(o) && IsActive(s) && h in s.helpers && h.op == o.id
    ensures HandlerEnabled(DeleteHelper(h), s)
    ensures var s' := HandlerEffect(DeleteHelper(h), s);
            s'.op == s.op && s'.ws == s.ws && s'.committed == s.committed && Fewer(s, s')
            && s'.helpers == s.helpers[h := s.helpers[h].(deleting := true)]
  {
  }

  method DeleteHelperPod(w: World, o: Operation, h: HelperName, pod: Helper) returns (ok: bool)
    requires w.Valid() && w.s.op == Some(o) && IsActive(w.s) && h.op == o.id
    modifies w
    ensures w.Valid() && old(w.acts) <= w.acts && Unsaved(old(w.s), w.s) && Fewer(old(w.s), w.s)
    ensures w.quiet && h in old(w.s).helpers && old(w.s).helpers[h] == pod ==>
              ok && w.s.helpers == old(w.s).helpers[h := pod.(deleting := true)]
  {
    hide Inv, Between, Run, KeepsLinks, HandlerEnabled, HandlerEffect, Fewer, HelpersRely;
    w.Interfere();
    BetweenUnsaved(old(w.s), w.s);
    BetweenFewer(old(w.s), w.s);
    ghost var t := w.s;
    var fails := w.Fails();
    if fails {
      return false;
    }
    // the deletion names the UID and the resource version that were listed
    if h !in w.s.helpers || w.s.helpers[h] != pod {
      return false;
    }
    HelperDeletable(w.s, o, h);
    w.Do(DeleteHelper(h));
    UnsavedTrans(old(w.s), t, w.s);
    FewerTrans(old(w.s), t, w.s);
    return true;
  }

  /** A helper Pod is not the one that was recorded. */
  predicate Replaced(s: State, o: Operation) {
    exists h :: h in s.helpers && h in o.helperUids && o.helperUids[h] != s.helpers[h].uid
  }

  /** The helper Pods are all on their way out, but not gone. */
  predicate Leaving(s: State) { s.helpers != map[] && forall h :: h in s.helpers ==> s.helpers[h].deleting }

  /** The listed Pods, one by one; undisturbed, every one of them is then on its way out. */
  method DeleteHelpers(w: World, o: Operation, listed: map<HelperName, Helper>) returns (ok: bool)
    requires w.Valid() && w.s.op == Some(o) && IsActive(w.s)
    requires forall h :: h in listed ==> h.op == o.id
    modifies w
    ensures w.Valid() && old(w.acts) <= w.acts && Unsaved(old(w.s), w.s) && Fewer(old(w.s), w.s)
    ensures w.quiet && listed == old(w.s).helpers ==>
              && w.s.helpers.Keys == listed.Keys
              && (ok ==> forall h :: h in w.s.helpers ==> w.s.helpers[h].deleting)
              && (!ok ==> Replaced(w.s, o))
  {
    hide Inv, Between, Run, Unsaved, Fewer, HelpersRely, Replaced, Handled, OpOk;
    var todo := listed.Keys;
    AllToDo(listed);
    BetweenRefl(w.s);
    BetweenUnsaved(w.s, w.s);
    BetweenFewer(w.s, w.s);
    while todo != {}
      invariant w.Valid() && w.s.op == Some(o) && old(w.acts) <= w.acts
      invariant Unsaved(old(w.s), w.s) && Fewer(old(w.s), w.s) && todo <= listed.Keys
      invariant w.quiet && listed == old(w.s).helpers ==> Handled(w.s.helpers, listed, todo)
      decreases |todo|
    {
      var h :| h in todo;
      if w.quiet && listed == old(w.s).helpers {
        OneHandled(w.s.helpers, listed, todo, h);
      }
      if h in o.helperUids && o.helperUids[h] != listed[h].uid {
        if w.quiet && listed == old(w.s).helpers {
          NotTheRecorded(w.s, o, listed, todo, h);
        }
        return false;
      }
      todo := todo - {h};
      if !listed[h].deleting {
        ghost var t := w.s;
        ok := DeleteHelperPod(w, o, h, listed[h]);
        UnsavedTrans(old(w.s), t, w.s);
        FewerTrans(old(w.s), t, w.s);
        SameOperation(t, w.s);
        if !ok {
          return;
        }
      }
    }
    if w.quiet && listed == old(w.s).helpers {
      AllHandled(w.s.helpers, listed);
    }
    return true;
  }

  lemma AllToDo(listed: map<HelperName, Helper>)
    ensures Handled(listed, listed, listed.Keys)
  {
  }

  lemma OneHandled(now: map<HelperName, Helper>, listed: map<HelperName, Helper>, todo: set<HelperName>, h: HelperName)
    requires h in todo && todo <= listed.Keys && Handled(now, listed, todo)
    ensures h in now && now[h] == listed[h]
    ensures Handled(if listed[h].deleting then now else now[h := listed[h].(deleting := true)], listed, todo - {h})
  {
  }

  lemma NotTheRecorded(
    s: State, o: Operation, listed: map<HelperName, Helper>, todo: set<HelperName>, h: HelperName)
    requires h in listed && Handled(s.helpers, listed, todo) && h in o.helperUids && o.helperUids[h] != listed[h].uid
    ensures Replaced(s, o) && s.helpers.Keys == listed.Keys
  {
    assert s.helpers[h].uid == listed[h].uid;
  }

  lemma AllHandled(now: map<HelperName, Helper>, listed: map<HelperName, Helper>)
    requires Handled(now, listed, {})
    ensures now.Keys == listed.Keys && forall h :: h in now ==> now[h].deleting
  {
  }

  lemma NowLeaving(s: State, listed: map<HelperName, Helper>)
    requires listed != map[] && s.helpers.Keys == listed.Keys && forall h :: h in s.helpers ==> s.helpers[h].deleting
    ensures Leaving(s)
  {
    var h :| h in listed;
    assert h in s.helpers;
  }

  /** Those not left to do are on their way out; nothing else has changed. */
  ghost predicate Handled(now: map<HelperName, Helper>, listed: map<HelperName, Helper>, todo: set<HelperName>) {
    && now.Keys == listed.Keys
    && forall h :: h in listed ==>
         now[h] == if h in todo then listed[h] else listed[h].(deleting := true)
  }

  /**
   `remove_shrink_helpers`: true only when no helper Pod is left; undisturbed, false
   means that they are all on their way out.
   */
  method RemoveHelpers(w: World, o: Operation) returns (r: Outcome<bool>)
    requires w.Valid() && w.s.op == Some(o) && IsActive(w.s)
    modifies w
    ensures w.Valid() && old(w.acts) <= w.acts && Unsaved(old(w.s), w.s) && Fewer(old(w.s), w.s)
    ensures r == Ok(true) ==> w.s.helpers == map[]
    ensures w.quiet ==> (r == Ok(false) ==> Leaving(w.s)) && (r.Err? ==> Replaced(w.s, o))
  {
    hide Inv, Between, Run, Unsaved, Fewer, HelpersRely, Replaced, Leaving, OpOk;
    w.Interfere();
    BetweenUnsaved(old(w.s), w.s);
    BetweenFewer(old(w.s), w.s);
    SameOperation(old(w.s), w.s);
    var fails := w.Fails();
    if fails {
      return Err;
    }
    OnlyOurs(w.s, o);
    ghost var u := w.s;
    if w.s.helpers != map[] {
      var ok := DeleteHelpers(w, o, w.s.helpers);
      UnsavedTrans(old(w.s), u, w.s);
      FewerTrans(old(w.s), u, w.s);
      if w.quiet && ok {
        NowLeaving(w.s, u.helpers);
      }
      return if ok then Ok(false) else Err;
    }
    r := RemovePolicy(w);
    UnsavedTrans(old(w.s), u, w.s);
    FewerTrans(old(w.s), u, w.s);
  }

  /** The helpers' NetworkPolicy goes last. */
  method RemovePolicy(w: World) returns (r: Outcome<bool>)
    requires w.Valid() && IsActive(w.s) && w.s.helpers == map[]
    modifies w
    ensures w.Valid() && old(w.acts) <= w.acts && Unsaved(old(w.s), w.s) && Fewer(old(w.s), w.s)
    ensures w.s.helpers == map[] && (w.quiet ==> r == Ok(true))
  {
    hide Inv, Between, Run, Unsaved, Fewer, HelpersRely, OpOk;
    w.Interfere();
    BetweenUnsaved(old(w.s), w.s);
    BetweenFewer(old(w.s), w.s);
    NoHelpersAfter(old(w.s), w.s);
    var lingers := w.Fails();
    if lingers {
      return Ok(false);
    }
    var fails := w.Fails();
    return if fails then Err else Ok(true);
  }

  lemma NoHelpersAfter(s: State, s': State)
    requires Between(s, s') && s.helpers == map[]
    ensures s'.helpers == map[]
  {
    NoHelpersStay(s, s');
  }

  // --------------------------------------------------------------- replacement claims

  lemma DestinationAsked(s: State, o: Operation, r: Role)
    requires Inv(s) && Linked(s, o) && o.phase == Measuring && o.Vol(r).target.Some?
    requires ShrinkClaim(o.id, r) !in s.claims
    ensures HandlerEnabled(CreateDestination(r), s)
    ensures var s' := HandlerEffect(CreateDestination(r), s);
            && s'.op == s.op && s'.ws == s.ws && s'.committed == s.committed
            && s'.claims == s.claims[ShrinkClaim(o.id, r) := NewClaim(s, r)]
  {
  }

  /** A claim of this migration cannot be collected: its name is never templated. */
  lemma OwnClaimGuarded(s: State, n: ClaimName)
    requires Inv(s) && n.ShrinkClaim? && n in s.claims && !s.claims[n].gcOwned && !s.claims[n].deleting
    ensures Guarded(s, n)
  {
  }

  lemma GuardedAfter(s: State, s': State, n: ClaimName)
    requires Between(s, s') && Guarded(s, n)
    ensures Guarded(s', n) && s'.claims[n].uid == s.claims[n].uid
  {
    hide Inv;
    assert ClaimsRely(s, s');
  }

  lemma DestinationRecorded(s: State, o: Operation, r: Role, b: Binding)
    requires Linked(s, o) && o.phase == Measuring && o.Vol(r).target.Some? && o.Vol(r).destination.None?
    requires b.name == ShrinkClaim(o.id, r) && Guarded(s, b.name) && s.claims[b.name].uid == b.uid
    ensures Linked(s, o.WithVol(r, o.Vol(r).(destination := Some(b))))
  {
    var o' := o.WithVol(r, o.Vol(r).(destination := Some(b)));
    hide SourcesHeld, DestinationsHeld, Offline, NoCopyRunning, Twins, Audited, SourcesGone, Known, Keeps, Shape;
    SameSourcesHeld(s, o, o');
    SameRecords(s, o, o');
    DestinationShape(s.op.value, o, r, b);
    assert DestinationsHeld(s, o') by { OneMoreDestination(s, o, r, b); }
  }

  lemma OneMoreDestination(s: State, o: Operation, r: Role, b: Binding)
    requires DestinationsHeld(s, o) && Guarded(s, b.name) && s.claims[b.name].uid == b.uid
    ensures DestinationsHeld(s, o.WithVol(r, o.Vol(r).(destination := Some(b))))
  {
  }

  lemma DestinationShape(saved: Operation, o: Operation, r: Role, b: Binding)
    requires Shape(o) && Keeps(saved, o) && saved.phase == o.phase == Measuring
    requires o.Vol(r).target.Some? && o.Vol(r).destination.None? && b.name == ShrinkClaim(o.id, r)
    ensures Shape(o.WithVol(r, o.Vol(r).(destination := Some(b))))
    ensures Keeps(saved, o.WithVol(r, o.Vol(r).(destination := Some(b))))
  {
  }

  lemma SameSourcesHeld(s: State, o: Operation, o': Operation)
    requires SourcesHeld(s, o) && forall r: Role :: o'.Vol(r).source == o.Vol(r).source
    ensures SourcesHeld(s, o')
  {
    assert o'.home.source == o'.Vol(Home).source == o.Vol(Home).source;
  }

  lemma SameRecords(s: State, o: Operation, o': Operation)
    requires Known(s, o) && Audited(s, o) && o'.id == o.id && o'.phase == o.phase
    requires forall r: Role ::
               && o'.Vol(r).target == o.Vol(r).target && o'.Vol(r).verified == o.Vol(r).verified
               && o'.Vol(r).used == o.Vol(r).used && o'.Vol(r).sourceVolume == o.Vol(r).sourceVolume
    ensures Known(s, o') && Audited(s, o')
  {
    forall r: Role
      ensures o'.Vol(r).verified ==> Accepted(s, o', r, Copy) && Accepted(s, o', r, Verify)
      ensures o'.Vol(r).target.Some? && o'.phase in {Verifying, Switching} ==> Accepted(s, o', r, Copy)
    {
      assert Accepted(s, o', r, Copy) == Accepted(s, o, r, Copy);
      assert Accepted(s, o', r, Verify) == Accepted(s, o, r, Verify);
    }
  }

  /** The operation's own claim for a role: the one there is, or a new one. */
  method ObtainDestination(w: World, o: Operation, r: Role) returns (claim: Outcome<Claim>)
    requires w.Valid() && IsActive(w.s) && Linked(w.s, o) && o.phase == Measuring && o.Vol(r).target.Some?
    modifies w
    ensures w.Valid() && IsActive(w.s) && old(w.acts) <= w.acts && Unsaved(old(w.s), w.s) && Linked(w.s, o)
    ensures claim.Ok? ==> ShrinkClaim(o.id, r) in w.s.claims && w.s.claims[ShrinkClaim(o.id, r)] == claim.value
    ensures w.quiet ==>
              && claim.Ok?
              && (ShrinkClaim(o.id, r) in old(w.s).claims ==> w.s == old(w.s))
              && (ShrinkClaim(o.id, r) !in old(w.s).claims ==>
                    w.s.claims == old(w.s).claims[ShrinkClaim(o.id, r) := NewClaim(old(w.s), r)])
  {
    hide Inv, Between, Run, Linked, HandlerEnabled, HandlerEffect, NewClaim;
    w.Interfere();
    BetweenUnsaved(old(w.s), w.s);
    var fails := w.Fails();
    if fails {
      return Err;
    }
    var n := ShrinkClaim(o.id, r);
    if n in w.s.claims {
      return Ok(w.s.claims[n]);
    }
    ghost var t := w.s;
    w.Interfere();
    BetweenUnsaved(t, w.s);
    UnsavedTrans(old(w.s), t, w.s);
    fails := w.Fails();
    if fails {
      return Err;
    }
    if n in w.s.claims {
      return Err;
    }
    ghost var u := w.s;
    DestinationAsked(w.s, o, r);
    w.Do(CreateDestination(r));
    UnsavedTrans(old(w.s), u, w.s);
    return Ok(w.s.claims[n]);
  }

  /** Why there can be no replacement: the source is not as recorded, or the claim of that name does not fit. */
  predicate CannotReplace(s: State, o: Operation, r: Role, source: Binding, target: u64) {
    || Wrong(s, source, true) || !Binding(ShrinkClaim(o.id, r), 0, target).IsValid()
    || (ShrinkClaim(o.id, r) in s.claims &&
        var claim := s.claims[ShrinkClaim(o.id, r)];
        !claim.ours || claim.deleting || claim.operation != Some(o.id) || claim.gcOwned
        || claim.request != Some(target * GIB))
  }

  lemma MadeMatches(s: State, o: Operation, r: Role, found: Claim, target: u64)
    requires ShrinkClaim(o.id, r) in s.claims ==> s.claims[ShrinkClaim(o.id, r)] == found
    ensures var b := Binding(ShrinkClaim(o.id, r), found.uid, target);
            Wrong(s, b, false) && b.name in s.claims ==> !b.IsValid() || !found.ours || found.deleting
                                                         || found.request != Some(target * GIB)
  {
  }

  /** A new replacement claim is as it is checked to be. */
  lemma NewClaimFits(s: State, o: Operation, r: Role, target: u64)
    requires IsActive(s) && Linked(s, o) && o.Vol(r).target == Some(target)
    ensures var claim := NewClaim(s, r);
            && claim.ours && !claim.deleting && claim.operation == Some(o.id) && !claim.gcOwned
            && claim.request == Some(target * GIB)
  {
    hide OpOk;
  }

  /** `create_shrink_destination`: the claim now recorded is held for this operation alone. */
  method CreateShrinkDestination(w: World, o: Operation, r: Role, source: Binding, target: u64)
    returns (b: Outcome<Binding>)
    requires w.Valid() && IsActive(w.s) && Linked(w.s, o) && o.phase == Measuring
    requires o.Vol(r).target == Some(target) && o.Vol(r).source == Some(source) && o.Vol(r).destination.None?
    modifies w
    ensures w.Valid() && IsActive(w.s) && old(w.acts) <= w.acts && Unsaved(old(w.s), w.s) && Linked(w.s, o)
    ensures b.Ok? ==>
              && b.value.name == ShrinkClaim(o.id, r) && b.value.gib == target
              && Linked(w.s, o.WithVol(r, o.Vol(r).(destination := Some(b.value))))
    ensures w.quiet && b.Err? ==> CannotReplace(w.s, o, r, source, target)
  {
    hide Inv, Between, Run, Linked, Guarded, ClaimMatches, NewClaim;
    var claim := ReadClaim(w, source, true);
    BetweenUnsaved(old(w.s), w.s);
    if claim.Err? {
      return Err;
    }
    ghost var t := w.s;
    var existing := ObtainDestination(w, o, r);
    UnsavedTrans(old(w.s), t, w.s);
    if existing.Err? {
      return Err;
    }
    var found := existing.value;
    if w.quiet && ShrinkClaim(o.id, r) !in old(w.s).claims {
      NewClaimFits(old(w.s), o, r, target);
    }
    if !found.ours || found.deleting || found.operation != Some(o.id) || found.gcOwned {
      return Err;
    }
    var made := Binding(ShrinkClaim(o.id, r), found.uid, target);
    OwnClaimGuarded(w.s, made.name);
    ghost var u := w.s;
    var seen := ReadClaim(w, made, false);
    BetweenUnsaved(u, w.s);
    UnsavedTrans(old(w.s), u, w.s);
    if seen.Err? {
      if w.quiet {
        MadeMatches(w.s, o, r, found, target);
      }
      return Err;
    }
    GuardedAfter(u, w.s, made.name);
    DestinationRecorded(w.s, o, r, made);
    return Ok(made);
  }
}
