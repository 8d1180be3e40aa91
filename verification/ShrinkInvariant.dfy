/** The inductive invariant of the shrink protocol. */
module ShrinkInvariant {
  import opened Options
  import opened ShrinkTypes
  import opened ShrinkStore
  import opened ShrinkCluster
  import opened ShrinkProtocol

  ghost predicate Fresh(s: State) {
    && (forall n :: n in s.claims ==>
          && (n.ShrinkClaim? ==> n.op < s.next)
          && (s.claims[n].volume.Some? ==>
                var p := s.claims[n].volume.value;
                p in s.pvs && s.pvs[p].ref == n && s.pvs[p].refUid == s.claims[n].uid))
    && (forall p :: p in s.pvs ==> p < s.next && s.pvs[p].handle < s.next)
    && (forall p, q :: p in s.pvs && q in s.pvs && s.pvs[p].handle == s.pvs[q].handle ==> p == q)
    && (forall r: Role :: s.ws.Eff(r).ShrinkClaim? ==> s.ws.Eff(r).op < s.next)
  }

  ghost predicate SpecOk(s: State, x: SetSpec) {
    && x.templated <= {DefaultClaim(Home), DefaultClaim(Temporary)}
    && (x.replicas > 0 ==> x.home == s.ws.Eff(Home) && x.scratch == s.ws.Eff(Temporary))
  }

  ghost predicate WorkloadOk(s: State) {
    && (s.workload.Some? ==>
          var w := s.workload.value;
          && w.observedGeneration <= w.generation
          && (w.observedGeneration == w.generation ==> w.observed == w.spec)
          && SpecOk(s, w.spec) && SpecOk(s, w.observed))
    && (s.work.Some? ==> forall r: Role :: s.work.value.Mount(r) == s.ws.Eff(r))
    && s.ws.Eff(Home) != s.ws.Eff(Temporary)
    && (forall r: Role :: s.ws.Eff(r).DefaultClaim? ==> s.ws.Eff(r).role == r)
  }

  /** Every explicitly bound claim is safe, and the claim in use holds the user's data. */
  ghost predicate UserDataSafe(s: State) {
    forall r: Role ::
      && (s.ws.Bound(r).Some? ==> Solid(s, s.ws.Bound(r).value) && Unownable(s, s.ws.Eff(r)))
      && (s.ws.Eff(r) in s.claims ==> DataOf(s, s.ws.Eff(r)) == s.user.At(r))
  }

  ghost predicate HelperOk(s: State, h: HelperName)
    requires h in s.helpers
  {
    && s.op.Some?
    && h.op == s.op.value.id
    && s.op.value.phase in {Queued, Stopping, Measuring, Copying, Verifying, Switching, RollingBack}
    && !s.committed
    && (s.helpers[h].dest.Some? ==> s.helpers[h].dest.value == ShrinkClaim(h.op, h.role))
    && (h.stage != Preflight ==> s.op.value.Vol(h.role).target.Some?)
    && (h.stage == Verify ==>
          && s.op.value.phase in {Verifying, Switching, RollingBack}
          && s.helpers[h].source == NameOf(s.op.value.Vol(h.role).source)
          && s.helpers[h].dest == NameOf(s.op.value.Vol(h.role).destination))
  }

  ghost predicate HelpersOk(s: State) { forall h :: h in s.helpers ==> HelperOk(s, h) }

  ghost predicate CommitOk(s: State, o: Operation) {
    && (o.phase == Queued || SourcePhase(o.phase) ==> !s.committed)
    && (SwitchedPhase(o.phase) ==> s.committed)
    && (s.committed ==>
          o.switched && forall r: Role :: s.ws.Bound(r) == OrElse(o.Vol(r).destination, o.Vol(r).source))
    && (!s.committed ==> forall r: Role, q: Role :: s.ws.Eff(r) != ShrinkClaim(o.id, q))
  }

  /** A record of the running operation, saved or still in memory, matches the world. */
  ghost predicate OpOk(s: State, o: Operation) { Evidence(s, o) && CommitOk(s, o) }

  ghost predicate Linked(s: State, o: Operation) {
    && s.op.Some? && Keeps(s.op.value, o) && o.phase == s.op.value.phase
    && OpOk(s, o)
  }

  ghost predicate Base(s: State) {
    Fresh(s) && WorkloadOk(s) && UserDataSafe(s) && HelpersOk(s)
  }

  ghost predicate Inv(s: State) {
    && Base(s)
    && (s.op.Some? ==> OpOk(s, s.op.value))
  }

  /** Actions that leave the saved operation alone. */
  predicate Calm(a: Action) {
    !(a.Enqueue? || a.Confirm? || a.RetryResume? || a.Save?)
  }

  // ------------------------------------------------------------ what a step must keep

  /** Nothing but the protocol itself can delete or collect this claim. */
  ghost predicate Guarded(s: State, n: ClaimName) {
    n in s.claims && !s.claims[n].gcOwned && !s.claims[n].deleting && Unownable(s, n)
  }

  ghost predicate KeepsGuarded(s: State, s': State) {
    forall n :: Guarded(s, n) ==>
      && Guarded(s', n)
      && s'.claims[n].uid == s.claims[n].uid
      && (s.claims[n].volume.Some? ==> s'.claims[n].volume == s.claims[n].volume)
  }

  ghost predicate KeepsData(s: State, s': State) {
    forall n :: Guarded(s, n) && Guarded(s', n) && s.claims[n].volume.Some? ==>
      DataOf(s', n) == DataOf(s, n)
  }

  ghost predicate SameBindings(s: State, s': State) {
    s'.ws.home == s.ws.home && s'.ws.scratch == s.ws.scratch
  }

  ghost predicate NeedsSources(s: State, o: Operation) {
    SourcePhase(o.phase) || (o.phase == RollingBack && !s.committed)
  }

  ghost predicate SameVerdicts(s: State, s': State) {
    forall h :: h in s'.helpers && h.stage == Verify && s'.helpers[h].phase == Succeeded ==>
      h in s.helpers && s.helpers[h].phase == Succeeded
  }

  ghost predicate OnlyRemoves(s: State, s': State) {
    && (forall n :: n in s'.claims ==> n in s.claims)
    && (forall p :: p in s'.pvs && p < s.next ==> p in s.pvs)
    && (forall hd :: hd in s'.backends && hd < s.next ==> hd in s.backends)
  }

  /** Volumes keep their handles, and new ones get new handles. */
  ghost predicate KeepsHandles(s: State, s': State) {
    forall p :: p in s'.pvs ==> if p in s.pvs then s'.pvs[p].handle == s.pvs[p].handle else s.next <= s'.pvs[p].handle
  }

  ghost predicate Steady(s: State, s': State, o: Operation) {
    && SameBindings(s, s') && s'.committed == s.committed && s'.reports == s.reports && s.next <= s'.next
    && KeepsHandles(s, s')
    && (NeedsSources(s, o) ==> KeepsGuarded(s, s'))
    && (OfflinePhase(o.phase) ==> Offline(s'))
    && (CopiedPhase(o.phase) ==> NoCopyRunning(s') && KeepsData(s, s'))
    && (o.phase == Verifying ==> SameVerdicts(s, s'))
    && (o.phase == Reclaimed ==> OnlyRemoves(s, s'))
    && (o.phase == Failed && s.helpers == map[] ==> s'.helpers == map[])
  }

  lemma SteadySources(s: State, s': State, o: Operation)
    requires SameBindings(s, s') && KeepsGuarded(s, s') && SourcesHeld(s, o)
    ensures SourcesHeld(s', o)
  {
    forall r: Role ensures s'.ws.Eff(r) == s.ws.Eff(r) && s'.ws.Bound(r) == s.ws.Bound(r) {
    }
    forall r: Role | o.Vol(r).source.Some?
      ensures Solid(s', o.Vol(r).source.value) && Unownable(s', o.Vol(r).source.value.name)
    {
      assert Guarded(s, o.Vol(r).source.value.name);
    }
  }

  lemma DestinationGuarded(s: State, o: Operation, r: Role)
    requires WorkloadOk(s) && Shape(o) && DestinationsHeld(s, o) && o.Vol(r).destination.Some?
    ensures Guarded(s, o.Vol(r).destination.value.name)
  {
  }

  lemma SteadyDestinations(s: State, s': State, o: Operation)
    requires WorkloadOk(s) && Shape(o) && KeepsGuarded(s, s') && DestinationsHeld(s, o)
    ensures DestinationsHeld(s', o)
  {
    forall r: Role | o.Vol(r).destination.Some?
      ensures Guarded(s', o.Vol(r).destination.value.name)
      ensures s'.claims[o.Vol(r).destination.value.name].uid == o.Vol(r).destination.value.uid
    {
      DestinationGuarded(s, o, r);
    }
  }

  lemma SteadyTwin(s: State, s': State, o: Operation, r: Role)
    requires WorkloadOk(s) && Shape(o) && KeepsGuarded(s, s') && KeepsData(s, s')
    requires SourcesHeld(s, o) && DestinationsHeld(s, o) && Twin(s, o.Vol(r))
    ensures Twin(s', o.Vol(r))
  {
    DestinationGuarded(s, o, r);
    assert Guarded(s, o.Vol(r).source.value.name);
    assert Guarded(s', o.Vol(r).source.value.name) && Guarded(s', o.Vol(r).destination.value.name);
  }

  lemma SteadyTwins(s: State, s': State, o: Operation)
    requires WorkloadOk(s) && Shape(o) && KeepsGuarded(s, s') && KeepsData(s, s')
    requires SourcesHeld(s, o) && DestinationsHeld(s, o) && Twins(s, o)
    requires o.phase == Verifying ==> SameVerdicts(s, s')
    ensures Twins(s', o)
  {
    forall r: Role | Twin(s, o.Vol(r)) ensures Twin(s', o.Vol(r)) {
      SteadyTwin(s, s', o, r);
    }
  }

  lemma SteadyCommit(s: State, s': State, o: Operation)
    requires SameBindings(s, s') && s'.committed == s.committed && CommitOk(s, o)
    ensures CommitOk(s', o)
    ensures SourcesNamed(s, o) ==> SourcesNamed(s', o)
  {
    forall r: Role ensures s'.ws.Eff(r) == s.ws.Eff(r) && s'.ws.Bound(r) == s.ws.Bound(r) {
    }
  }

  lemma SteadyRecords(s: State, s': State, o: Operation)
    requires KeepsHandles(s, s') && s.next <= s'.next && s'.reports == s.reports
    ensures Known(s, o) ==> Known(s', o)
    ensures Audited(s, o) ==> Audited(s', o)
  {
  }

  /** A steady step keeps a record of the operation, saved or in memory, true. */
  lemma SteadyOp(s: State, s': State, o: Operation)
    requires WorkloadOk(s) && OpOk(s, o) && Steady(s, s', o)
    ensures OpOk(s', o)
  {
    SteadyCommit(s, s', o);
    if NeedsSources(s, o) {
      SteadySources(s, s', o);
    }
    if OfflinePhase(o.phase) {
      SteadyDestinations(s, s', o);
    }
    if CopiedPhase(o.phase) {
      SteadyTwins(s, s', o);
    }
    SteadyRecords(s, s', o);
    assert o.phase == Reclaimed ==> SourcesGone(s', o);
  }
}
