/** Every save, and every request made while no operation is active, keeps the invariant. */
module ShrinkSaves {
  import opened Options
  import opened ShrinkTypes
  import opened ShrinkStore
  import opened ShrinkCluster
  import opened ShrinkProtocol
  import opened ShrinkInvariant

  /** The cluster is untouched; only the operation and the workspace row may differ. */
  ghost predicate SameCluster(s: State, s': State) {
    s' == s.(op := s'.op, ws := s'.ws, committed := s'.committed)
  }

  lemma SameClusterFacts(s: State, s': State)
    requires SameCluster(s, s')
    ensures forall n :: n in s.claims ==> DataOf(s', n) == DataOf(s, n)
    ensures forall b :: Solid(s', b) == Solid(s, b)
    ensures forall n :: Unownable(s', n) == Unownable(s, n)
    ensures Offline(s') == Offline(s) && NoCopyRunning(s') == NoCopyRunning(s)
    ensures forall v :: Twin(s', v) == Twin(s, v)
    ensures forall v :: SourceGone(s', v) == SourceGone(s, v)
  {
  }

  /** Rebinding a role to a safe claim with the same data keeps the user's data safe. */
  lemma RebindBase(s: State, s': State)
    requires Base(s) && SameCluster(s, s') && HelpersOk(s')
    requires s'.ws.Eff(Home) != s'.ws.Eff(Temporary)
    requires Offline(s) || forall r: Role :: s'.ws.Eff(r) == s.ws.Eff(r)
    requires forall r: Role ::
               && (s'.ws.Eff(r).DefaultClaim? ==> s'.ws.Eff(r).role == r)
               && (s'.ws.Eff(r).ShrinkClaim? ==> s'.ws.Eff(r).op < s.next)
               && (s'.ws.Bound(r).Some? ==> Solid(s, s'.ws.Bound(r).value) && Unownable(s, s'.ws.Eff(r)))
               && (s'.ws.Eff(r) in s.claims ==> DataOf(s, s'.ws.Eff(r)) == s.user.At(r))
    ensures Base(s')
  {
    SameClusterFacts(s, s');
  }

  /** Helpers outlive a save only while the operation may still have helpers. */
  lemma SavedHelper(s: State, s': State, o: Operation, u: Update, h: HelperName)
    requires h in s.helpers && HelperOk(s, h) && SameCluster(s, s')
    requires s'.op == Some(o) && s'.committed == (s.committed || u == Switch)
    requires Keeps(s.op.value, o) && Edge(s.op.value.phase, o.phase, u) && o.phase !in {Failed, Resuming}
    requires !SwitchedPhase(s.op.value.phase)
    ensures HelperOk(s', h)
  {
  }

  lemma SaveHelpers(s: State, o: Operation, u: Update)
    requires Inv(s) && SaveEnabled(s, o, u)
    ensures HelpersOk(Saved(s, o, u))
  {
    var s' := Saved(s, o, u);
    forall h | h in s'.helpers ensures HelperOk(s', h) {
      assert HelperOk(s, h);
      assert s.helpers != map[];
      assert CommitOk(s, s.op.value);
      SavedHelper(s, s', o, u, h);
    }
  }

  lemma SameRowBase(s: State, s': State)
    requires Base(s) && SameCluster(s, s') && HelpersOk(s') && SameBindings(s, s')
    ensures Base(s')
  {
    forall r: Role ensures s'.ws.Eff(r) == s.ws.Eff(r) && s'.ws.Bound(r) == s.ws.Bound(r) {
    }
    RebindBase(s, s');
  }

  /** Saves that leave the bindings alone. */
  lemma PlainSaveBase(s: State, o: Operation, u: Update)
    requires Inv(s) && SaveEnabled(s, o, u) && u in {NoUpdate, ToStopped, ToStarting}
    ensures Base(Saved(s, o, u))
  {
    SaveHelpers(s, o, u);
    SameRowBase(s, Saved(s, o, u));
  }

  /** Binding a role to its recorded source changes nothing a Pod would mount. */
  lemma SourceIsInUse(s: State, o: Operation, r: Role)
    requires SourcesHeld(s, o)
    ensures o.Vol(r).source.None? ==> s.ws.Bound(r).None?
    ensures o.Vol(r).source.Some? ==>
              && o.Vol(r).source.value.name == s.ws.Eff(r)
              && Solid(s, o.Vol(r).source.value) && Unownable(s, s.ws.Eff(r))
  {
  }

  lemma RestoreBase(s: State, s': State, o: Operation)
    requires Base(s) && SameCluster(s, s') && HelpersOk(s') && SourcesHeld(s, o)
    requires forall r: Role :: s'.ws.Bound(r) == s.ws.Bound(r) || s'.ws.Bound(r) == o.Vol(r).source
    ensures Base(s')
  {
    forall r: Role ensures s'.ws.Eff(r) == s.ws.Eff(r) {
      SourceIsInUse(s, o, r);
    }
    RebindBase(s, s');
  }

  lemma RestoringSaveBase(s: State, o: Operation, u: Update)
    requires Inv(s) && SaveEnabled(s, o, u) && u in {ToStopping, Rollback}
    ensures Base(Saved(s, o, u))
  {
    var s' := Saved(s, o, u);
    SaveHelpers(s, o, u);
    if o.switched {
      assert SameBindings(s, s');
      SameRowBase(s, s');
    } else {
      RestoredSources(s, o, u);
      RestoreBase(s, s', o);
    }
  }

  lemma RestoredSources(s: State, o: Operation, u: Update)
    requires Inv(s) && SaveEnabled(s, o, u) && u in {ToStopping, Rollback} && !o.switched
    ensures SourcesHeld(s, o)
  {
    assert CommitOk(s, s.op.value);
    assert !s.committed;
    if u == Rollback {
      assert SourcesHeld(s, s.op.value);
      assert forall r: Role :: o.Vol(r).source == s.op.value.Vol(r).source;
    }
  }

  /** At the switch, every targeted role moves to a claim with the same data. */
  lemma SwitchTarget(s: State, o: Operation, r: Role)
    requires WorkloadOk(s) && UserDataSafe(s) && !s.committed && Evidence(s, o) && o.phase == Resuming
    ensures var b := OrElse(o.Vol(r).destination, o.Vol(r).source);
            && (b.Some? ==> SwitchesTo(s, b.value, o.id, r))
            && (b.None? ==> s.ws.Bound(r).None?)
  {
    SourceIsInUse(s, o, r);
    if o.Vol(r).destination.Some? {
      SwitchTwin(s, o, r);
    }
  }

  lemma SwitchTwin(s: State, o: Operation, r: Role)
    requires WorkloadOk(s) && UserDataSafe(s) && !s.committed
    requires Evidence(s, o) && o.phase == Resuming && o.Vol(r).destination.Some?
    ensures var d := o.Vol(r).destination.value;
            && d.name == ShrinkClaim(o.id, r)
            && Solid(s, d) && Unownable(s, d.name) && DataOf(s, d.name) == s.user.At(r)
  {
    var d := o.Vol(r).destination.value;
    assert Shape(o) && o.Vol(r).verified;
    assert Twin(s, o.Vol(r));
    DestinationGuarded(s, o, r);
    SourceIsInUse(s, o, r);
  }

  lemma SwitchBase(s: State, o: Operation)
    requires Inv(s) && SaveEnabled(s, o, Switch)
    ensures Base(Saved(s, o, Switch))
  {
    var s' := Saved(s, o, Switch);
    SaveHelpers(s, o, Switch);
    SwitchFacts(s, o);
    forall r: Role
      ensures s'.ws.Bound(r).Some? ==> SwitchesTo(s, s'.ws.Bound(r).value, o.id, r)
      ensures s'.ws.Bound(r).None? ==> s.ws.Bound(r).None?
    {
      SwitchTarget(s, o, r);
    }
    SwitchRebind(s, s', o.id);
  }

  ghost predicate SwitchesTo(s: State, b: Binding, id: nat, r: Role) {
    && Solid(s, b) && Unownable(s, b.name) && DataOf(s, b.name) == s.user.At(r)
    && (b.name == ShrinkClaim(id, r) || b.name == s.ws.Eff(r))
  }

  lemma SwitchRebind(s: State, s': State, id: nat)
    requires Base(s) && SameCluster(s, s') && HelpersOk(s') && Offline(s) && id < s.next
    requires forall r: Role, q: Role :: s.ws.Eff(r) != ShrinkClaim(id, q)
    requires forall r: Role ::
               && (s'.ws.Bound(r).Some? ==> SwitchesTo(s, s'.ws.Bound(r).value, id, r))
               && (s'.ws.Bound(r).None? ==> s.ws.Bound(r).None?)
    ensures Base(s')
  {
    forall r: Role ensures s'.ws.Eff(r) == ShrinkClaim(id, r) || s'.ws.Eff(r) == s.ws.Eff(r) {
    }
    RebindBase(s, s');
  }

  lemma SwitchFacts(s: State, o: Operation)
    requires Inv(s) && SaveEnabled(s, o, Switch)
    ensures Offline(s) && o.id < s.next && !s.committed
    ensures forall r: Role, q: Role :: s.ws.Eff(r) != ShrinkClaim(o.id, q)
  {
    assert CommitOk(s, s.op.value);
    assert Known(s, o);
  }

  // ------------------------------------------------- the saved record is true afterwards

  lemma PlainSaveOp(s: State, o: Operation, u: Update)
    requires Inv(s) && SaveEnabled(s, o, u) && u in {NoUpdate, ToStopped, ToStarting}
    ensures OpOk(Saved(s, o, u), o)
  {
    var s' := Saved(s, o, u);
    assert SameBindings(s, s') && s'.committed == s.committed;
    SavedCommit(s, s', o, u);
    EvidenceMoves(s, s', o);
  }

  lemma SavedCommit(s: State, s': State, o: Operation, u: Update)
    requires Inv(s) && SaveEnabled(s, o, u) && SameBindings(s, s') && s'.committed == s.committed
    requires u != Switch && u != Rollback
    ensures CommitOk(s', o)
  {
    assert CommitOk(s, s.op.value);
    forall r: Role ensures s'.ws.Eff(r) == s.ws.Eff(r) && s'.ws.Bound(r) == s.ws.Bound(r) {
    }
    if s.committed {
      forall r: Role ensures o.Vol(r).source == s.op.value.Vol(r).source
                     ensures o.Vol(r).destination == s.op.value.Vol(r).destination {
        assert s.op.value.switched;
        assert Shape(s.op.value);
      }
    }
  }

  /** Evidence depends on the cluster and on which claims are in use, not on the row. */
  lemma EvidenceMoves(s: State, s': State, o: Operation)
    requires Evidence(s, o) && SameCluster(s, s') && SameBindings(s, s') && s'.committed == s.committed
    ensures Evidence(s', o)
  {
    SameClusterFacts(s, s');
    forall r: Role ensures s'.ws.Eff(r) == s.ws.Eff(r) && s'.ws.Bound(r) == s.ws.Bound(r) {
    }
    assert SourcesNamed(s, o) ==> SourcesNamed(s', o);
    assert SourcesHeld(s, o) ==> SourcesHeld(s', o);
    assert DestinationsHeld(s, o) ==> DestinationsHeld(s', o);
    assert Twins(s, o) ==> Twins(s', o);
    assert Audited(s, o) ==> Audited(s', o);
    assert SourcesGone(s, o) ==> SourcesGone(s', o);
  }

  lemma RestoringSaveOp(s: State, o: Operation, u: Update)
    requires Inv(s) && SaveEnabled(s, o, u) && u in {ToStopping, Rollback}
    ensures OpOk(Saved(s, o, u), o)
  {
    var s' := Saved(s, o, u);
    if o.switched {
      SavedCommit(s, s', o, u);
      EvidenceMoves(s, s', o);
    } else {
      RestoredSources(s, o, u);
      RestoredCommit(s, s', o, u);
      RestoredEvidence(s, s', o);
    }
  }

  lemma RestoredCommit(s: State, s': State, o: Operation, u: Update)
    requires Inv(s) && SaveEnabled(s, o, u) && u in {ToStopping, Rollback} && !o.switched
    requires SourcesHeld(s, o) && s' == Saved(s, o, u)
    ensures CommitOk(s', o)
  {
    assert CommitOk(s, s.op.value);
    forall r: Role ensures s'.ws.Eff(r) == s.ws.Eff(r) {
      SourceIsInUse(s, o, r);
    }
  }

  lemma RestoredEvidence(s: State, s': State, o: Operation)
    requires Evidence(s, o) && SourcesHeld(s, o) && SameCluster(s, s') && s'.committed == s.committed
    requires o.phase in {Stopping, RollingBack, Failed}
    requires forall r: Role :: s'.ws.Bound(r) == s.ws.Bound(r) || s'.ws.Bound(r) == o.Vol(r).source
    ensures Evidence(s', o)
  {
    SameClusterFacts(s, s');
    forall r: Role ensures s'.ws.Eff(r) == s.ws.Eff(r) {
      SourceIsInUse(s, o, r);
    }
    assert SourcesHeld(s', o);
    assert Audited(s', o);
  }

  lemma SwitchOp(s: State, o: Operation)
    requires Inv(s) && SaveEnabled(s, o, Switch)
    ensures OpOk(Saved(s, o, Switch), o)
  {
    var s' := Saved(s, o, Switch);
    SwitchTarget(s, o, Home);
    SwitchTarget(s, o, Temporary);
    assert o.phase == Resuming && Shape(o) && Audited(s, o) && Known(s, o);
    assert Audited(s', o);
  }

  lemma SaveKeepsInv(s: State, o: Operation, u: Update)
    requires Inv(s) && SaveEnabled(s, o, u)
    ensures Inv(Saved(s, o, u))
  {
    match u
    case NoUpdate => PlainSaveBase(s, o, u); PlainSaveOp(s, o, u);
    case ToStopped => PlainSaveBase(s, o, u); PlainSaveOp(s, o, u);
    case ToStarting => PlainSaveBase(s, o, u); PlainSaveOp(s, o, u);
    case ToStopping => RestoringSaveBase(s, o, u); RestoringSaveOp(s, o, u);
    case Rollback => RestoringSaveBase(s, o, u); RestoringSaveOp(s, o, u);
    case Switch => SwitchBase(s, o); SwitchOp(s, o);
  }

  // ------------------------------------- requests made while no operation is active

  lemma HelpersMeanActive(s: State)
    requires Inv(s)
    ensures s.helpers != map[] ==> IsActive(s)
  {
    if s.helpers != map[] {
      var h :| h in s.helpers;
      assert HelperOk(s, h);
    }
  }

  lemma EnqueueBase(s: State, q: Request, now: int)
    requires Base(s) && s.helpers == map[]
    ensures Base(s.(op := Some(NewOperation(s.next, q, s.ws, now)), committed := false,
                    reports := map[], next := s.next + 1))
  {
    var s' := s.(op := Some(NewOperation(s.next, q, s.ws, now)), committed := false,
                 reports := map[], next := s.next + 1);
    forall n | n in s.claims ensures DataOf(s', n) == DataOf(s, n) {
    }
  }

  lemma EnqueueOp(s: State, q: Request, now: int)
    requires Base(s)
    ensures OpOk(s.(op := Some(NewOperation(s.next, q, s.ws, now)), committed := false,
                    reports := map[], next := s.next + 1), NewOperation(s.next, q, s.ws, now))
  {
    EnqueueShape(s, q, now);
    hide HelpersOk, Fresh, WorkloadOk, Shape;
  }

  lemma EnqueueShape(s: State, q: Request, now: int)
    requires Base(s)
    ensures Shape(NewOperation(s.next, q, s.ws, now))
  {
    hide HelpersOk;
    assert s.ws.Eff(Home) != s.ws.Eff(Temporary);
    assert forall r: Role :: s.ws.Bound(r).Some? ==> s.ws.Bound(r).value.name == s.ws.Eff(r);
  }

  lemma EnqueueKeeps(s: State, q: Request, now: int)
    requires Inv(s) && EnvEnabled(Enqueue(q, now), s)
    ensures Inv(EnvEffect(Enqueue(q, now), s))
  {
    hide Base, OpOk, NewOperation, RequestAllowed;
    HelpersMeanActive(s);
    EnqueueBase(s, q, now);
    EnqueueOp(s, q, now);
  }

  /** A finished record may be reopened with the same evidence. */
  lemma ReopenKeeps(s: State, o: Operation)
    requires Inv(s) && !IsActive(s) && s.op.Some? && s.committed
    requires o == s.op.value.(phase := o.phase, updatedAt := o.updatedAt, error := o.error)
    requires Shape(o) && o.phase in {Resuming, Reclaiming}
    ensures Inv(s.(op := Some(o)))
  {
    var s' := s.(op := Some(o));
    HelpersMeanActive(s);
    SameRowBase(s, s');
    assert CommitOk(s, s.op.value) && Audited(s, s.op.value) && Known(s, s.op.value);
    assert forall r: Role :: o.Vol(r) == s.op.value.Vol(r);
  }

  lemma ConfirmKeeps(s: State, now: int)
    requires Inv(s) && EnvEnabled(Confirm(now), s)
    ensures Inv(EnvEffect(Confirm(now), s))
  {
    assert CommitOk(s, s.op.value) && Shape(s.op.value);
    ReopenKeeps(s, s.op.value.(phase := Reclaiming, updatedAt := now, error := false));
  }

  /** A retry is accepted only when the Switch really was committed. */
  lemma RetryKeeps(s: State, now: int)
    requires Inv(s) && EnvEnabled(RetryResume(now), s)
    ensures s.committed
    ensures Inv(EnvEffect(RetryResume(now), s))
  {
    hide Base, Evidence, CommitOk, RetryAllowed;
    var o := s.op.value;
    assert CommitOk(s, o);
    RecordShape(s, o);
    RetryWasCommitted(s);
    RetryShape(o, s.ws, now);
    ReopenKeeps(s, o.(phase := Resuming, updatedAt := now, error := false));
  }

  lemma RecordShape(s: State, o: Operation)
    requires Evidence(s, o)
    ensures Shape(o)
  {
    hide Shape;
  }

  lemma RetryShape(o: Operation, ws: Workspace, now: int)
    requires Shape(o) && RetryAllowed(o, ws)
    ensures Shape(o.(phase := Resuming, updatedAt := now, error := false)) && !o.phase.Active()
  {
  }

  lemma RetryWasCommitted(s: State)
    requires s.op.Some? && RetryAllowed(s.op.value, s.ws) && Shape(s.op.value) && CommitOk(s, s.op.value)
    ensures s.committed
  {
    var o := s.op.value;
    var r := if o.home.target.Some? then Home else Temporary;
    assert s.ws.Eff(r) == ShrinkClaim(o.id, r);
  }
}
