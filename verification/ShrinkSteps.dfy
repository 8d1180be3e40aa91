/** Every action that leaves the saved operation alone keeps the invariant. */
module ShrinkSteps {
  import opened Options
  import opened ShrinkTypes
  import opened ShrinkStore
  import opened ShrinkCluster
  import opened ShrinkProtocol
  import opened ShrinkInvariant

  /** The part of a record's truth that single steps need. */
  ghost predicate Holds(s: State, o: Operation) {
    && Base(s) && s.op.Some? && o.phase == s.op.value.phase && o.id == s.op.value.id
    && (OfflinePhase(o.phase) ==> Offline(s))
    && (CopiedPhase(o.phase) ==> NoCopyRunning(s))
    && CommitOk(s, o)
  }

  lemma SameEff(s: State, s': State, r: Role)
    requires SameBindings(s, s')
    ensures s'.ws.Eff(r) == s.ws.Eff(r) && s'.ws.Bound(r) == s.ws.Bound(r)
  {
  }

  // ------------------------------------------------------------------ the workload

  /** Everything but the workload, its Pod, foreign Pods and the state column. */
  ghost predicate SameStorage(s: State, s': State) {
    s' == s.(workload := s'.workload, work := s'.work, others := s'.others, ws := s'.ws)
    && SameBindings(s, s')
  }

  lemma SameStorageBase(s: State, s': State)
    requires Base(s) && SameStorage(s, s') && WorkloadOk(s')
    requires forall r: Role :: s.ws.Bound(r).Some? ==> Unownable(s', s.ws.Eff(r))
    ensures Base(s')
  {
    SameEff(s, s', Home);
    SameEff(s, s', Temporary);
    forall n | n in s.claims ensures DataOf(s', n) == DataOf(s, n) {
    }
    forall h | h in s'.helpers ensures HelperOk(s', h) {
      assert HelperOk(s, h);
    }
  }

  lemma SameStorageSteady(s: State, s': State, o: Operation)
    requires SameStorage(s, s') && Holds(s, o)
    requires NeedsSources(s, o) ==> forall n :: Unownable(s, n) ==> Unownable(s', n)
    requires OfflinePhase(o.phase) ==> Offline(s')
    ensures Steady(s, s', o)
  {
  }

  lemma ObserveKeeps(s: State, o: Operation)
    requires Base(s) && EnvEnabled(Observe, s)
    ensures Base(EnvEffect(Observe, s))
    ensures Holds(s, o) ==> Steady(s, EnvEffect(Observe, s), o)
  {
    var s' := EnvEffect(Observe, s);
    SameStorageBase(s, s');
    if Holds(s, o) {
      SameStorageSteady(s, s', o);
    }
  }

  lemma PodKeeps(s: State, s': State, o: Operation)
    requires Base(s) && s' == s.(work := s'.work, others := s'.others)
    requires s'.work.Some? ==>
               || s'.work == s.work
               || (s.workload.Some? && s.workload.value.observed.replicas > 0 &&
                   s'.work == Some(WorkPod(s.workload.value.observed.home, s.workload.value.observed.scratch)))
    ensures Base(s')
    ensures Holds(s, o) ==> Steady(s, s', o)
  {
    SameStorageBase(s, s');
    if Holds(s, o) {
      SameStorageSteady(s, s', o);
    }
  }

  lemma StateKeeps(s: State, st: WorkspaceState, o: Operation)
    requires Base(s)
    ensures Base(s.(ws := s.ws.(state := st)))
    ensures Holds(s, o) ==> Steady(s, s.(ws := s.ws.(state := st)), o)
  {
    var s' := s.(ws := s.ws.(state := st));
    SameEff(s, s', Home);
    SameEff(s, s', Temporary);
    assert WorkloadOk(s');
    SameStorageBase(s, s');
    if Holds(s, o) {
      SameStorageSteady(s, s', o);
    }
  }

  lemma ApplyKeeps(s: State, retain: bool, o: Operation)
    requires Base(s)
    ensures Base(s.(workload := Some(Applied(s, retain))))
    ensures Holds(s, o) && !NeedsSources(s, o) && !OfflinePhase(o.phase) ==>
              Steady(s, s.(workload := Some(Applied(s, retain))), o)
  {
    var s' := s.(workload := Some(Applied(s, retain)));
    SameStorageBase(s, s');
    if Holds(s, o) && !NeedsSources(s, o) && !OfflinePhase(o.phase) {
      SameStorageSteady(s, s', o);
    }
  }

  lemma RequestKeeps(a: Action, s: State, o: Operation)
    requires Base(s) && (a.RequestRetain? || a.RequestStop?) && HandlerEnabled(a, s)
    ensures Base(HandlerEffect(a, s))
    ensures Holds(s, o) ==> Steady(s, HandlerEffect(a, s), o)
  {
    var s' := HandlerEffect(a, s);
    assert s'.workload.value.spec.templated == s.workload.value.spec.templated;
    SameStorageBase(s, s');
    if Holds(s, o) {
      SameStorageSteady(s, s', o);
    }
  }

  // ------------------------------------------------------------------- helper Pods

  /** Only helper Pods, accepted reports and the identifier counter change. */
  ghost predicate SameClaims(s: State, s': State) {
    s' == s.(helpers := s'.helpers, reports := s'.reports, next := s'.next) && s.next <= s'.next
  }

  lemma SameClaimsBase(s: State, s': State)
    requires Base(s) && SameClaims(s, s') && HelpersOk(s')
    ensures Base(s')
  {
    forall n | n in s.claims ensures DataOf(s', n) == DataOf(s, n) {
    }
  }

  lemma SameClaimsSteady(s: State, s': State, o: Operation)
    requires SameClaims(s, s') && Holds(s, o) && s'.reports == s.reports
    requires CopiedPhase(o.phase) ==> NoCopyRunning(s')
    requires o.phase == Verifying ==> SameVerdicts(s, s')
    requires o.phase == Failed && s.helpers == map[] ==> s'.helpers == map[]
    ensures Steady(s, s', o)
  {
    forall n | n in s.claims ensures DataOf(s', n) == DataOf(s, n) {
    }
  }

  lemma HelperEndsBase(s: State, h: HelperName, p: Helper)
    requires Base(s) && h in s.helpers
    requires p.source == s.helpers[h].source && p.dest == s.helpers[h].dest
    ensures Base(s.(helpers := s.helpers[h := p]))
  {
    var s' := s.(helpers := s.helpers[h := p]);
    forall k | k in s'.helpers ensures HelperOk(s', k) {
      assert HelperOk(s, k);
    }
    SameClaimsBase(s, s');
  }

  lemma HelperEndsSteady(s: State, h: HelperName, p: Helper, o: Operation)
    requires Holds(s, o) && h in s.helpers
    requires p.phase == Running ==> s.helpers[h].phase == Running
    requires h.stage == Verify && p.phase == Succeeded ==> s.helpers[h].phase == Succeeded
    ensures Steady(s, s.(helpers := s.helpers[h := p]), o)
  {
    SameClaimsSteady(s, s.(helpers := s.helpers[h := p]), o);
  }

  lemma HelperExitKeeps(s: State, h: HelperName, o: Operation)
    requires Base(s) && h in s.helpers
    ensures Base(s.(helpers := s.helpers - {h}))
    ensures Holds(s, o) ==> Steady(s, s.(helpers := s.helpers - {h}), o)
  {
    var s' := s.(helpers := s.helpers - {h});
    forall k | k in s'.helpers ensures HelperOk(s', k) {
      assert HelperOk(s, k);
    }
    SameClaimsBase(s, s');
    if Holds(s, o) {
      assert NoCopyRunning(s) ==> NoCopyRunning(s');
      SameClaimsSteady(s, s', o);
    }
  }

  /** A verifying helper succeeds only when both volumes hold the same data. */
  lemma HelperSucceedsOp(s: State, h: HelperName, u: Usage, o: Operation)
    requires Holds(s, o) && OpOk(s, o) && h in s.helpers && h.op == o.id && s.helpers[h].phase == Running
    requires h.stage == Verify && o.phase == Verifying ==> Twin(s, o.Vol(h.role))
    ensures OpOk(s.(helpers := s.helpers[h := s.helpers[h].(phase := Succeeded, usage := u)]), o)
  {
    hide OpOk, Fresh, UserDataSafe, WorkloadOk, HelperOk;
    var p := s.helpers[h].(phase := Succeeded, usage := u);
    var s' := s.(helpers := s.helpers[h := p]);
    if h.stage != Verify || o.phase != Verifying {
      SameClaimsSteady(s, s', o);
      SteadyOp(s, s', o);
    } else {
      // without this verdict the step is steady
      var mid := s.(helpers := s.helpers[h := p.(phase := PodFailed)]);
      HelperEndsSteady(s, h, p.(phase := PodFailed), o);
      SteadyOp(s, mid, o);
      OneMoreVerdict(mid, s', h, o);
    }
  }

  lemma OneMoreVerdict(s: State, s': State, h: HelperName, o: Operation)
    requires OpOk(s, o) && o.phase == Verifying && h in s.helpers && h.op == o.id
    requires s' == s.(helpers := s.helpers[h := s.helpers[h].(phase := Succeeded)])
    requires Twin(s, o.Vol(h.role))
    ensures OpOk(s', o)
  {
    forall n | n in s.claims ensures DataOf(s', n) == DataOf(s, n) {
    }
    forall r: Role | Twin(s, o.Vol(r)) ensures Twin(s', o.Vol(r)) {
    }
    assert SourcesHeld(s', o) && DestinationsHeld(s', o) && NoCopyRunning(s');
    assert Twins(s', o);
  }

  lemma CreateHelperKeeps(s: State, r: Role, stage: Stage, o: Operation)
    requires Inv(s) && HandlerEnabled(CreateHelper(r, stage), s)
    ensures Base(HandlerEffect(CreateHelper(r, stage), s))
    ensures Holds(s, o) ==> Steady(s, HandlerEffect(CreateHelper(r, stage), s), o)
  {
    CreatedHelperBase(s, r, stage);
    if Holds(s, o) {
      CreatedHelperSteady(s, r, stage, o);
    }
  }

  lemma CreatedHelperBase(s: State, r: Role, stage: Stage)
    requires Inv(s) && HandlerEnabled(CreateHelper(r, stage), s)
    ensures Base(HandlerEffect(CreateHelper(r, stage), s))
  {
    CreatedHelperOk(s, r, stage);
    CreatedHelperFrame(s, r, stage);
    hide HandlerEnabled, HandlerEffect, OpOk, NewHelper, HelperOk, UserDataSafe, Fresh, WorkloadOk;
    var s' := HandlerEffect(CreateHelper(r, stage), s);
    OneMoreHelper(s, s', HelperName(s.op.value.id, r, stage));
    SameClaimsBase(s, s');
  }

  lemma CreatedHelperSteady(s: State, r: Role, stage: Stage, o: Operation)
    requires Inv(s) && HandlerEnabled(CreateHelper(r, stage), s) && Holds(s, o)
    ensures Steady(s, HandlerEffect(CreateHelper(r, stage), s), o)
  {
    CreatedHelperFrame(s, r, stage);
    hide HandlerEnabled, HandlerEffect, OpOk, Base;
    SameClaimsSteady(s, HandlerEffect(CreateHelper(r, stage), s), o);
  }

  lemma CreatedHelperFrame(s: State, r: Role, stage: Stage)
    requires HandlerEnabled(CreateHelper(r, stage), s)
    ensures IsActive(s) && StageOf(s.op.value.phase) == Some(stage)
    ensures HandlerEffect(CreateHelper(r, stage), s)
            == s.(helpers := s.helpers[HelperName(s.op.value.id, r, stage) := NewHelper(s, r, stage)],
                  next := s.next + 1)
    ensures HelperName(s.op.value.id, r, stage) !in s.helpers
  {
  }

  lemma OneMoreHelper(s: State, s': State, h: HelperName)
    requires HelpersOk(s) && s'.op == s.op && s'.committed == s.committed
    requires h in s'.helpers && s'.helpers == s.helpers[h := s'.helpers[h]] && HelperOk(s', h)
    ensures HelpersOk(s')
  {
    forall k | k in s'.helpers ensures HelperOk(s', k) {
      if k != h {
        assert HelperOk(s, k);
      }
    }
  }

  lemma CreatedHelperOk(s: State, r: Role, stage: Stage)
    requires Inv(s) && HandlerEnabled(CreateHelper(r, stage), s)
    ensures HelperOk(HandlerEffect(CreateHelper(r, stage), s), HelperName(s.op.value.id, r, stage))
  {
    var o := s.op.value;
    assert Shape(o) && CommitOk(s, o);
  }

  lemma ReportKeeps(s: State, r: Role, stage: Stage, u: Usage, o: Operation)
    requires Base(s) && OpOk(s, o) && o.Vol(r).used == Some(u)
    ensures Base(s.(reports := s.reports[(r, stage) := u])) && OpOk(s.(reports := s.reports[(r, stage) := u]), o)
  {
    hide Shape, Known, CommitOk, SourcesHeld, DestinationsHeld, Twins, Offline, NoCopyRunning, SourcesGone;
    var s' := s.(reports := s.reports[(r, stage) := u]);
    assert HelpersOk(s') by {
      forall k | k in s'.helpers ensures HelperOk(s', k) {
        assert HelperOk(s, k);
      }
    }
    SameClaimsBase(s, s');
    assert Audited(s, o) ==> Audited(s', o);
    ReportedOp(s, s', o);
  }

  lemma ReportedOp(s: State, s': State, o: Operation)
    requires Base(s) && OpOk(s, o) && s' == s.(reports := s'.reports) && Audited(s', o)
    ensures OpOk(s', o)
  {
    forall n | n in s.claims ensures DataOf(s', n) == DataOf(s, n) {
    }
    forall r: Role | Twin(s, o.Vol(r)) ensures Twin(s', o.Vol(r)) {
    }
    assert Twins(s, o) ==> Twins(s', o);
    assert SourcesHeld(s, o) ==> SourcesHeld(s', o);
    assert DestinationsHeld(s, o) ==> DestinationsHeld(s', o);
    assert SourcesGone(s, o) ==> SourcesGone(s', o);
  }

  // ------------------------------------------------------- persistent volumes and data

  /** Volumes change, but every volume a claim uses stays, with its data. */
  ghost predicate SameContents(s: State, s': State) {
    && s' == s.(pvs := s'.pvs, backends := s'.backends)
    && (forall p :: p in s'.pvs ==>
          p in s.pvs && s'.pvs[p].ref == s.pvs[p].ref && s'.pvs[p].refUid == s.pvs[p].refUid
          && s'.pvs[p].handle == s.pvs[p].handle && s'.pvs[p].data == s.pvs[p].data)
    && (forall p :: p in s.pvs && ClaimAlive(s, p) ==> p in s'.pvs)
    && (forall hd :: hd in s'.backends ==> hd in s.backends)
  }

  lemma SameContentsKeeps(s: State, s': State, o: Operation)
    requires Base(s) && SameContents(s, s')
    ensures Base(s')
    ensures Holds(s, o) ==> Steady(s, s', o)
  {
    forall n | n in s.claims && s.claims[n].volume.Some?
      ensures s.claims[n].volume.value in s'.pvs
    {
      assert ClaimAlive(s, s.claims[n].volume.value);
    }
    forall n | n in s.claims ensures DataOf(s', n) == DataOf(s, n) {
    }
    forall h | h in s'.helpers ensures HelperOk(s', h) {
      assert HelperOk(s, h);
    }
  }

  /** A Pod writes one volume: every other claim's data stays. */
  lemma WriteIsLocal(s: State, n: ClaimName, d: Data, m: ClaimName)
    requires Fresh(s) && n in s.claims && s.claims[n].volume.Some? && m in s.claims
    ensures DataOf(s.(pvs := WriteClaim(s, n, d)), m) == if m == n then d else DataOf(s, m)
  {
  }

  ghost predicate Written(s: State, s': State, n: ClaimName, d: Data) {
    && n in s.claims && s.claims[n].volume.Some?
    && s' == s.(pvs := WriteClaim(s, n, d), user := s'.user)
  }

  lemma WriteBase(s: State, s': State, n: ClaimName, d: Data)
    requires Base(s) && Written(s, s', n, d)
    requires forall r: Role :: s'.user.At(r) == if s.ws.Eff(r) == n then d else s.user.At(r)
    ensures Base(s')
  {
    forall m | m in s.claims ensures DataOf(s', m) == if m == n then d else DataOf(s, m) {
      WriteIsLocal(s, n, d, m);
      assert DataOf(s', m) == DataOf(s.(pvs := WriteClaim(s, n, d)), m);
    }
    forall h | h in s'.helpers ensures HelperOk(s', h) {
      assert HelperOk(s, h);
    }
  }

  lemma WriteSteady(s: State, s': State, n: ClaimName, d: Data, o: Operation)
    requires Holds(s, o) && Written(s, s', n, d) && !CopiedPhase(o.phase)
    ensures Steady(s, s', o)
  {
  }

  lemma UserWriteKeeps(s: State, r: Role, d: Data, o: Operation)
    requires Base(s) && EnvEnabled(UserWrite(r, d), s)
    ensures Base(EnvEffect(UserWrite(r, d), s))
    ensures Holds(s, o) ==> Steady(s, EnvEffect(UserWrite(r, d), s), o)
  {
    var s' := EnvEffect(UserWrite(r, d), s);
    WriteBase(s, s', s.ws.Eff(r), d);
    if Holds(s, o) {
      WriteSteady(s, s', s.ws.Eff(r), d, o);
    }
  }

  lemma HelperWriteKeeps(s: State, h: HelperName, d: Data, o: Operation)
    requires Inv(s) && EnvEnabled(HelperWrites(h, d), s)
    ensures Base(EnvEffect(HelperWrites(h, d), s))
    ensures Holds(s, o) ==> Steady(s, EnvEffect(HelperWrites(h, d), s), o)
  {
    var s' := EnvEffect(HelperWrites(h, d), s);
    var n := s.helpers[h].dest.value;
    assert HelperOk(s, h);
    assert CommitOk(s, s.op.value);
    WriteBase(s, s', n, d);
    if Holds(s, o) {
      WriteSteady(s, s', n, d, o);
    }
  }

  // -------------------------------------------------------------------------- claims

  /** One claim is replaced, added or removed; other claims and all volumes stay. */
  lemma ClaimChangeBase(s: State, s': State, n: ClaimName)
    requires Base(s) && s.next <= s'.next
    requires s' == s.(claims := s'.claims, user := s'.user, next := s'.next)
    requires s'.claims - {n} == s.claims - {n}
    requires n in s'.claims ==>
               && (n.ShrinkClaim? ==> n.op < s'.next)
               && (s'.claims[n].volume.Some? ==>
                     n in s.claims && s'.claims[n].volume == s.claims[n].volume && s'.claims[n].uid == s.claims[n].uid)
    requires forall r: Role :: s.ws.Eff(r) != n ==> s'.user.At(r) == s.user.At(r)
    requires forall r: Role :: s.ws.Eff(r) == n ==>
               && (s.ws.Bound(r).Some? ==> Solid(s', s.ws.Bound(r).value))
               && (n in s'.claims ==> n in s.claims && s'.claims[n].volume == s.claims[n].volume
                                      && s'.user.At(r) == s.user.At(r))
    ensures Base(s')
  {
    forall m | m in s'.claims && m != n ensures m in s.claims && s'.claims[m] == s.claims[m] {
      assert m in s'.claims - {n};
    }
    forall m | m in s.claims && m != n ensures m in s'.claims {
      assert m in s.claims - {n};
    }
    forall h | h in s'.helpers ensures HelperOk(s', h) {
      assert HelperOk(s, h);
    }
    forall r: Role
      ensures s'.ws.Bound(r).Some? ==> Solid(s', s'.ws.Bound(r).value)
      ensures s'.ws.Eff(r) in s'.claims ==> DataOf(s', s'.ws.Eff(r)) == s'.user.At(r)
    {
    }
  }

  lemma ClaimChangeSteady(s: State, s': State, n: ClaimName, o: Operation)
    requires Holds(s, o) && s.next <= s'.next
    requires s' == s.(claims := s'.claims, user := s'.user, next := s'.next)
    requires s'.claims - {n} == s.claims - {n}
    requires o.phase == Reclaimed ==> n in s.claims
    requires NeedsSources(s, o) && Guarded(s, n) ==>
               && n in s'.claims && s'.claims[n] == s.claims[n].(volume := s'.claims[n].volume)
               && (s.claims[n].volume.Some? ==> s'.claims[n].volume == s.claims[n].volume)
    ensures Steady(s, s', o)
  {
    forall m | m in s.claims && m != n ensures m in s'.claims && s'.claims[m] == s.claims[m] {
      assert m in s.claims - {n};
    }
    forall m | m in s'.claims && m != n ensures m in s.claims && s'.claims[m] == s.claims[m] {
      assert m in s'.claims - {n};
    }
    assert NeedsSources(s, o) ==> KeepsGuarded(s, s');
  }

  lemma BindBase(s: State, n: ClaimName, driver: Driver, capacity: nat, policyDelete: bool)
    requires Base(s) && EnvEnabled(BindClaim(n, driver, capacity, policyDelete), s)
    ensures Base(EnvEffect(BindClaim(n, driver, capacity, policyDelete), s))
  {
    var s' := EnvEffect(BindClaim(n, driver, capacity, policyDelete), s);
    BoundBase(s, s', n);
  }

  /** A claim that had no volume gets a new, empty one; nothing else changes. */
  lemma BoundBase(s: State, s': State, n: ClaimName)
    requires Base(s) && n in s.claims && s.claims[n].volume.None?
    requires n in s'.claims
    requires s'.claims == s.claims[n := s.claims[n].(volume := Some(s.next), capacity := s'.claims[n].capacity)]
    requires s.next in s'.pvs && s'.pvs == s.pvs[s.next := s'.pvs[s.next]]
    requires var pv := s'.pvs[s.next];
             pv.ref == n && pv.refUid == s.claims[n].uid && pv.handle == s.next && pv.data == []
    requires s' == s.(claims := s'.claims, pvs := s'.pvs, backends := s'.backends, next := s.next + 1)
    ensures Base(s')
  {
    BoundFresh(s, s', n);
    BoundData(s, s', n);
    BoundSafe(s, s', n);
    hide Fresh, UserDataSafe, DataOf;
    forall h | h in s'.helpers ensures HelperOk(s', h) {
      assert HelperOk(s, h);
    }
  }

  lemma BoundSafe(s: State, s': State, n: ClaimName)
    requires Fresh(s) && UserDataSafe(s) && n in s.claims && s.claims[n].volume.None? && n in s'.claims
    requires s'.claims == s.claims[n := s.claims[n].(volume := Some(s.next), capacity := s'.claims[n].capacity)]
    requires s.next in s'.pvs && s'.pvs == s.pvs[s.next := s'.pvs[s.next]]
    requires s' == s.(claims := s'.claims, pvs := s'.pvs, backends := s'.backends, next := s.next + 1)
    requires forall m :: m in s.claims ==> DataOf(s', m) == DataOf(s, m)
    ensures UserDataSafe(s')
  {
    hide DataOf;
  }

  lemma BoundFresh(s: State, s': State, n: ClaimName)
    requires Fresh(s) && n in s.claims && n in s'.claims && s.next in s'.pvs
    requires s'.claims == s.claims[n := s.claims[n].(volume := Some(s.next), capacity := s'.claims[n].capacity)]
    requires s'.pvs == s.pvs[s.next := s'.pvs[s.next]]
    requires var pv := s'.pvs[s.next]; pv.ref == n && pv.refUid == s.claims[n].uid && pv.handle == s.next
    requires s'.next == s.next + 1 && s'.ws == s.ws
    ensures Fresh(s')
  {
  }

  lemma BoundData(s: State, s': State, n: ClaimName)
    requires Fresh(s) && n in s.claims && s.claims[n].volume.None? && n in s'.claims && s.next in s'.pvs
    requires s'.claims == s.claims[n := s.claims[n].(volume := Some(s.next), capacity := s'.claims[n].capacity)]
    requires s'.pvs == s.pvs[s.next := s'.pvs[s.next]] && s'.pvs[s.next].data == []
    ensures forall m :: m in s.claims ==> DataOf(s', m) == DataOf(s, m)
  {
  }

  lemma BindSteady(s: State, n: ClaimName, driver: Driver, capacity: nat, policyDelete: bool, o: Operation)
    requires Holds(s, o) && EnvEnabled(BindClaim(n, driver, capacity, policyDelete), s)
    ensures Steady(s, EnvEffect(BindClaim(n, driver, capacity, policyDelete), s), o)
  {
    var s' := EnvEffect(BindClaim(n, driver, capacity, policyDelete), s);
    BindGuards(s, n, driver, capacity, policyDelete);
    BindData(s, n, driver, capacity, policyDelete);
    hide KeepsGuarded, KeepsData, KeepsHandles, Base, OpOk;
  }

  lemma BindGuards(s: State, n: ClaimName, driver: Driver, capacity: nat, policyDelete: bool)
    requires Fresh(s) && EnvEnabled(BindClaim(n, driver, capacity, policyDelete), s)
    ensures var s' := EnvEffect(BindClaim(n, driver, capacity, policyDelete), s);
            KeepsGuarded(s, s') && KeepsHandles(s, s')
  {
  }

  lemma BindData(s: State, n: ClaimName, driver: Driver, capacity: nat, policyDelete: bool)
    requires Fresh(s) && EnvEnabled(BindClaim(n, driver, capacity, policyDelete), s)
    ensures KeepsData(s, EnvEffect(BindClaim(n, driver, capacity, policyDelete), s))
  {
    var s' := EnvEffect(BindClaim(n, driver, capacity, policyDelete), s);
    forall m | m in s.claims ensures DataOf(s', m) == DataOf(s, m) {
    }
  }

  lemma OwnClaimKeeps(s: State, n: ClaimName, o: Operation)
    requires Base(s) && EnvEnabled(OwnClaim(n), s)
    ensures Base(EnvEffect(OwnClaim(n), s))
    ensures Holds(s, o) ==> Steady(s, EnvEffect(OwnClaim(n), s), o)
  {
    var s' := EnvEffect(OwnClaim(n), s);
    assert !Unownable(s, n);
    ClaimChangeBase(s, s', n);
    if Holds(s, o) {
      ClaimChangeSteady(s, s', n, o);
    }
  }

  lemma ClaimGoneKeeps(a: Action, s: State, n: ClaimName, o: Operation)
    requires Base(s) && (a == CollectClaim(n) || a == FinalizeClaim(n)) && EnvEnabled(a, s)
    ensures Base(EnvEffect(a, s))
    ensures Holds(s, o) ==> Steady(s, EnvEffect(a, s), o)
  {
    var s' := EnvEffect(a, s);
    assert !Guarded(s, n);
    ClaimChangeBase(s, s', n);
    if Holds(s, o) {
      ClaimChangeSteady(s, s', n, o);
    }
  }

  lemma ReleaseOwnerKeeps(s: State, r: Role, o: Operation)
    requires Base(s) && HandlerEnabled(ReleaseOwner(r), s)
    ensures Base(HandlerEffect(ReleaseOwner(r), s))
    ensures Holds(s, o) ==> Steady(s, HandlerEffect(ReleaseOwner(r), s), o)
  {
    var s' := HandlerEffect(ReleaseOwner(r), s);
    var n := s.op.value.Vol(r).source.value.name;
    ClaimChangeBase(s, s', n);
    if Holds(s, o) {
      ClaimChangeSteady(s, s', n, o);
    }
  }

  lemma CreateDestinationKeeps(s: State, r: Role, o: Operation)
    requires Inv(s) && HandlerEnabled(CreateDestination(r), s)
    ensures Base(HandlerEffect(CreateDestination(r), s))
    ensures Holds(s, o) ==> Steady(s, HandlerEffect(CreateDestination(r), s), o)
  {
    var s' := HandlerEffect(CreateDestination(r), s);
    var n := ShrinkClaim(s.op.value.id, r);
    assert CommitOk(s, s.op.value) && Known(s, s.op.value);
    ClaimChangeBase(s, s', n);
    if Holds(s, o) {
      ClaimChangeSteady(s, s', n, o);
    }
  }

  /** The claim being reclaimed is bound to neither role. */
  lemma ReclaimedIsUnbound(s: State, r: Role, q: Role)
    requires Inv(s) && HandlerEnabled(DeleteSourceClaim(r), s)
    ensures s.ws.Eff(q) != s.op.value.Vol(r).source.value.name
  {
    var o := s.op.value;
    assert Shape(o) && CommitOk(s, o);
    assert s.ws.Bound(q) == OrElse(o.Vol(q).destination, o.Vol(q).source);
    assert o.home.source.Some? && o.temporary.source.Some? ==>
        o.home.source.value.name != o.temporary.source.value.name;
    if q == r {
      assert Solid(s, o.Vol(r).destination.value);
    }
  }

  lemma DeleteSourceKeeps(s: State, r: Role, o: Operation)
    requires Inv(s) && HandlerEnabled(DeleteSourceClaim(r), s)
    ensures Base(HandlerEffect(DeleteSourceClaim(r), s))
    ensures Holds(s, o) ==> Steady(s, HandlerEffect(DeleteSourceClaim(r), s), o)
  {
    var s' := HandlerEffect(DeleteSourceClaim(r), s);
    var n := s.op.value.Vol(r).source.value.name;
    ReclaimedIsUnbound(s, r, Home);
    ReclaimedIsUnbound(s, r, Temporary);
    hide Evidence, CommitOk, PvMatches, Fresh, UserDataSafe, WorkloadOk, HelperOk;
    assert s.op.value.phase == Reclaiming;
    ClaimChangeBase(s, s', n);
    if Holds(s, o) {
      ClaimChangeSteady(s, s', n, o);
    }
  }
}
