/**
 The database and the cluster as the handler sees them: every call of its own is
 one atomic action, and between two calls anybody else may act any number of
 times. The ghost trace is a run of the protocol, so every theorem about runs is a
 theorem about what the handler does, wherever a crash stops it.
 */
module ShrinkWorld {
  import opened Options
  import opened ShrinkTypes
  import opened ShrinkStore
  import opened ShrinkCluster
  import opened ShrinkProtocol
  import opened ShrinkInvariant
  import opened ShrinkSafety
  import opened ShrinkRuns
  import opened ShrinkRely

  /** Records of the operation, saved or in memory, stay true. */
  ghost predicate KeepsLinks(s: State, s': State) {
    forall o :: Linked(s, o) ==> Linked(s', o)
  }

  /** Only others acted: an operation in progress is still the same one. */
  ghost predicate Between(s: State, s': State) {
    Inv(s) && Inv(s') && Rely(s, s') && KeepsLinks(s, s')
  }

  lemma RunGrows(ss: seq<State>, acts: seq<Action>, a: Action, s': State)
    requires Run(ss, acts) && Step(ss[|ss| - 1], a, s')
    ensures Run(ss + [s'], acts + [a])
  {
    var ss', acts' := ss + [s'], acts + [a];
    forall i | 0 <= i < |acts'| ensures Step(ss'[i], acts'[i], ss'[i + 1]) {
      if i < |acts| {
        assert Step(ss[i], acts[i], ss[i + 1]);
      }
    }
  }

  lemma BetweenRefl(s: State)
    requires Inv(s)
    ensures Between(s, s)
  {
    RelyRefl(s);
  }

  lemma BetweenTrans(s: State, t: State, u: State)
    requires Between(s, t) && Between(t, u)
    ensures Between(s, u)
  {
    RelyTrans(s, t, u) by { InvBase(s); }
  }

  lemma EnvMove(s: State, a: Action)
    requires Inv(s) && IsActive(s) && EnvEnabled(a, s)
    ensures Between(s, EnvEffect(a, s)) && IsActive(EnvEffect(a, s))
    ensures Step(s, a, EnvEffect(a, s))
  {
    hide EnvEnabled, EnvEffect, Inv, Rely, OpOk;
    EnvRely(a, s);
    CalmStepInv(s, a);
    SameOp(s, a);
    forall o | Linked(s, o) ensures Linked(EnvEffect(a, s), o) {
      EnvKeeps(a, s, o);
    }
  }

  lemma InvBase(s: State)
    requires Inv(s)
    ensures Base(s) && Fresh(s)
  {
  }

  lemma DoMove(s: State, a: Action)
    requires Inv(s) && HandlerEnabled(a, s)
    ensures Inv(HandlerEffect(a, s)) && Step(s, a, HandlerEffect(a, s))
    ensures Calm(a) ==> KeepsLinks(s, HandlerEffect(a, s))
  {
    hide HandlerEnabled, HandlerEffect, EnvEnabled, EnvEffect, Inv, KeepsLinks;
    HandlerStepInv(s, a);
    OnlyHandlers(a, s);
    if Calm(a) {
      DoKeepsLinks(s, a);
    }
  }

  lemma DoKeepsLinks(s: State, a: Action)
    requires Inv(s) && HandlerEnabled(a, s) && Calm(a)
    ensures KeepsLinks(s, HandlerEffect(a, s))
  {
    hide HandlerEnabled, HandlerEffect, Inv, OpOk;
    HandlerSameOp(s, a);
    forall o | Linked(s, o) ensures Linked(HandlerEffect(a, s), o) {
      HandlerKeeps(a, s, o);
    }
  }

  lemma OnlyHandlers(a: Action, s: State)
    requires HandlerEnabled(a, s)
    ensures !EnvEnabled(a, s)
  {
  }

  // ------------------------------------------------------------------------- saving

  /** The handler may save this record, unless the row's own checks refuse it. */
  ghost predicate CanSave(s: State, o: Operation, u: Update) {
    && IsActive(s)
    && Keeps(s.op.value, o)
    && Edge(s.op.value.phase, o.phase, u)
    && Grounds(s, o, u)
    && Evidence(s, o)
    && (o.phase == s.op.value.phase ==> CommitOk(s, o))
  }

  lemma NoVerdicts(s: State, s': State)
    requires HelpersOk(s) && HelpersRely(s, s') && s.op.Some? && s.op.value.phase == Copying
    ensures SameVerdicts(s, s')
  {
    forall h | h in s'.helpers ensures h.stage != Verify {
      assert HelperOk(s, h);
    }
  }

  lemma RelyData(s: State, s': State)
    requires Rely(s, s') && Offline(s) && NoCopyRunning(s)
    ensures Offline(s') && NoCopyRunning(s') && KeepsData(s, s')
  {
  }

  lemma NoHelpersStay(s: State, s': State)
    requires HelpersRely(s, s') && s.helpers == map[]
    ensures s'.helpers == map[] && NoCopyRunning(s)
  {
    forall h ensures h !in s'.helpers {
    }
  }

  /** Evidence for the next phase cannot be lost while others act. */
  lemma EvidenceStable(s: State, s': State, o: Operation)
    requires Inv(s) && Rely(s, s') && Evidence(s, o)
    requires o.phase == Verifying ==> s.op.Some? && s.op.value.phase == Copying
    ensures Evidence(s', o)
  {
    hide Shape, PvsRely, HelpersRely, WorkloadRely, KeepsData, KeepsGuarded, SourcesHeld, DestinationsHeld, Twins,
         NoCopyRunning, Offline, HelpersOk, Fresh, WorkloadOk, UserDataSafe, Audited, OpOk;
    if SourcesHeld(s, o) {
      SteadySources(s, s', o);
    }
    if DestinationsHeld(s, o) {
      SteadyDestinations(s, s', o);
    }
    if s.helpers == map[] {
      NoHelpersStay(s, s');
    }
    if o.phase == Verifying {
      NoVerdicts(s, s');
    }
    if Offline(s) {
      OfflineStays(s, s');
      if NoCopyRunning(s) {
        RelyData(s, s');
        if SourcesHeld(s, o) && DestinationsHeld(s, o) && Twins(s, o) {
          SteadyTwins(s, s', o);
        }
      }
    }
    RelyRecords(s, s', o);
  }

  lemma OfflineStays(s: State, s': State)
    requires WorkloadRely(s, s') && Offline(s)
    ensures Offline(s')
  {
  }

  lemma RelyRecords(s: State, s': State, o: Operation)
    requires Rely(s, s')
    ensures Known(s, o) ==> Known(s', o)
    ensures Audited(s, o) ==> Audited(s', o)
    ensures SourcesNamed(s, o) ==> SourcesNamed(s', o)
    ensures Known(s, o) && SourcesGone(s, o) ==> SourcesGone(s', o)
  {
  }

  lemma RollbackDoneStays(s: State, s': State, o: Operation)
    requires Rely(s, s') && RollbackDone(s, o)
    ensures RollbackDone(s', o)
  {
    hide PvsRely, HelpersRely, KeepsData;
    forall r: Role | s.workload.Some? && o.Vol(r).source.Some?
      ensures Solid(s', o.Vol(r).source.value) && Unownable(s', o.Vol(r).source.value.name)
    {
      assert Guarded(s, o.Vol(r).source.value.name);
    }
  }

  lemma CanSaveStable(s: State, s': State, o: Operation, u: Update)
    requires Between(s, s') && CanSave(s, o, u)
    ensures CanSave(s', o, u)
  {
    hide Evidence, CommitOk, Inv, Keeps, ClaimsRely, PvsRely, HelpersRely, WorkloadRely, KeepsData, RollbackDone;
    if RollbackDone(s, o) {
      RollbackDoneStays(s, s', o);
    }
    if o.phase == s.op.value.phase {
      assert Linked(s, o);
    } else {
      EvidenceStable(s, s', o);
    }
  }

  class World {
    /** Nobody else acts while a call is made, and every request is answered. */
    const quiet: bool
    var s: State
    ghost var ss: seq<State>
    ghost var acts: seq<Action>

    /** The handler's last call was this one, and nobody has acted since. */
    ghost predicate Just(a: Action)
      reads this
    {
      acts != [] && acts[|acts| - 1] == a
    }

    ghost predicate Valid()
      reads this
    {
      |ss| > 0 && Run(ss, acts) && ss[|ss| - 1] == s && Inv(s)
    }

    constructor (start: State, quiet: bool)
      requires Init(start)
      ensures Valid() && s == start && acts == [] && this.quiet == quiet
    {
      s, ss, acts, this.quiet := start, [start], [], quiet;
    }

    /** A request is not answered, or answered with an error of the server's own. */
    method Fails() returns (fails: bool)
      ensures quiet ==> !fails
    {
      fails := *;
      if quiet {
        fails := false;
      }
    }

    /** One call of the handler takes effect. */
    method Do(a: Action)
      requires Valid() && HandlerEnabled(a, s)
      modifies this
      ensures Valid() && s == HandlerEffect(a, old(s)) && acts == old(acts) + [a]
      ensures Calm(a) ==> KeepsLinks(old(s), s)
    {
      hide HandlerEnabled, HandlerEffect, Inv, Run, Step, KeepsLinks;
      DoMove(s, a);
      RunGrows(ss, acts, a, HandlerEffect(a, s));
      s := HandlerEffect(a, s);
      ss, acts := ss + [s], acts + [a];
    }

    /**
     `save_storage_shrink`: the record and the workspace update are committed
     together or not at all; the caller may be told of a failure either way.
     */
    method Commit(o: Operation, u: Update) returns (ok: bool, ghost mid: State)
      requires Valid() && CanSave(s, o, u)
      modifies this
      ensures Valid() && old(acts) <= acts
      ensures Between(old(s), mid) && CanSave(mid, o, u)
      ensures s == mid || (ApplyUpdate(mid.ws, o, u).Some? && s == Saved(mid, o, u) && Linked(s, o))
      ensures ok ==> s.op == Some(o) && Linked(s, o)
      ensures quiet ==> mid == old(s) && ok == ApplyUpdate(old(s).ws, o, u).Some?
      ensures quiet ==> s == if ok then Saved(old(s), o, u) else old(s)
    {
      hide Evidence, CommitOk, Inv, Keeps, Run, Between, KeepsLinks, Linked, OpOk;
      Interfere();
      CanSaveStable(old(s), s, o, u);
      mid := s;
      var lost := Fails();
      if lost {
        return false, mid;
      }
      if ApplyUpdate(s.ws, o, u).None? {
        return false, mid;
      }
      Do(Save(o, u));
      SelfLinked(s);
      lost := Fails();
      return !lost, mid;
    }

    /** Somebody else acts once. */
    method Other(a: Action)
      requires Valid() && IsActive(s) && EnvEnabled(a, s)
      modifies this
      ensures Valid() && IsActive(s) && acts == old(acts) + [a] && s == EnvEffect(a, old(s)) && Between(old(s), s)
    {
      hide EnvEnabled, EnvEffect, Inv, Run, Step, Between, IsActive;
      EnvMove(s, a);
      RunGrows(ss, acts, a, EnvEffect(a, s));
      s := EnvEffect(a, s);
      ss, acts := ss + [s], acts + [a];
      BetweenInv(old(s), s);
    }

    /** Everybody else acts, any number of times. */
    method Interfere()
      requires Valid() && IsActive(s)
      modifies this
      ensures Valid() && IsActive(s) && old(acts) <= acts && Between(old(s), s)
      ensures quiet ==> s == old(s) && acts == old(acts)
    {
      hide EnvEnabled, EnvEffect, Inv, Run, Step, Between, IsActive;
      var steps: nat := *;
      BetweenRefl(s);
      if quiet {
        return;
      }
      while steps > 0
        invariant Valid() && IsActive(s) && old(acts) <= acts && Between(old(s), s)
      {
        var a: Action := *;
        if EnvEnabled(a, s) {
          ghost var t := s;
          Other(a);
          BetweenTrans(old(s), t, s);
        }
        steps := steps - 1;
      }
    }
  }

  lemma BetweenParts(s: State, s': State)
    requires Between(s, s')
    ensures HelpersRely(s, s') && s'.reports == s.reports
  {
  }

  lemma SavedHelpers(s: State, t: State, u: State)
    requires HelpersRely(s, t) && u.helpers == t.helpers
    ensures HelpersRely(s, u)
  {
  }

  lemma BetweenInv(s: State, s': State)
    requires Between(s, s')
    ensures Inv(s) && Inv(s')
  {
  }
}
