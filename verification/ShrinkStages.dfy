/** Discovering the sources, and one look at a helper Pod. */
module ShrinkStages {
  import opened Options
  import opened ShrinkTypes
  import opened ShrinkStore
  import opened ShrinkCluster
  import opened ShrinkProtocol
  import opened ShrinkInvariant
  import opened ShrinkRely
  import opened ShrinkRuns
  import opened ShrinkWorld
  import opened ShrinkCoordinator
  import opened ShrinkHelpers

  // -------------------------------------------------------------------------- sources

  /** `binding_from_claim`: only an exact positive number of GiB is recorded. */
  function BindingFromClaim(n: ClaimName, claim: Claim): (b: Option<Binding>)
    ensures b.Some? <==>
              && claim.capacity.Some? && 0 < claim.capacity.value <= I64_MAX
              && exists g: nat :: claim.capacity.value == g * GIB
    ensures b.Some? ==> b.value.IsValid() && b.value.gib * GIB == claim.capacity.value
                        && b.value.name == n && b.value.uid == claim.uid
  {
    if claim.capacity.None? || claim.capacity.value > I64_MAX then None
    else if claim.capacity.value == 0 || claim.capacity.value % GIB != 0 then None
    else
      assert claim.capacity.value == (claim.capacity.value / GIB) * GIB;
      Some(Binding(n, claim.uid, claim.capacity.value / GIB))
  }

  /** The record with a source that has just been read. */
  function Sourced(o: Operation, r: Role, b: Binding): Operation { o.WithVol(r, o.Vol(r).(source := Some(b))) }

  lemma SourceFound(s: State, o: Operation, r: Role, b: Binding)
    requires Inv(s) && Linked(s, o) && o.phase == Queued && o.Vol(r).source.None? && b.name == DefaultClaim(r)
    ensures Linked(s, Sourced(o, r, b))
  {
    hide SourcesNamed, Known, Audited, CommitOk, Keeps, Shape, Inv, Sourced;
    SourcedFacts(s, o, r, b);
    SourcedShape(s, s.op.value, o, r, b);
  }

  lemma SourcedFacts(s: State, o: Operation, r: Role, b: Binding)
    requires SourcesNamed(s, o) && Known(s, o) && Audited(s, o) && CommitOk(s, o) && o.phase == Queued
    requires o.Vol(r).source.None? && b.name == DefaultClaim(r)
    ensures var o' := Sourced(o, r, b);
            && SourcesNamed(s, o') && Known(s, o') && Audited(s, o') && CommitOk(s, o')
            && o'.phase == Queued
  {
    var o' := Sourced(o, r, b);
    assert s.ws.Bound(r).None?;
    forall q: Role
      ensures o'.Vol(q) == o.Vol(q).(source := o'.Vol(q).source)
      ensures forall g :: Accepted(s, o', q, g) == Accepted(s, o, q, g)
    {
    }
  }

  lemma SourcedShape(s: State, saved: Operation, o: Operation, r: Role, b: Binding)
    requires Inv(s) && Shape(o) && o.phase == Queued && Keeps(saved, o) && saved.phase == Queued
    requires o.Vol(r).source.None? && b.name == DefaultClaim(r) && SourcesNamed(s, Sourced(o, r, b))
    ensures Shape(Sourced(o, r, b)) && Keeps(saved, Sourced(o, r, b))
  {
    hide OpOk, Fresh, UserDataSafe, HelpersOk;
    var o' := Sourced(o, r, b);
    forall q: Role | o'.Vol(q).source.Some? ensures o'.Vol(q).source.value.name == s.ws.Eff(q) {
    }
    assert o'.home == o'.Vol(Home) && o'.temporary == o'.Vol(Temporary);
  }

  lemma IdentityFound(s: State, o: Operation, r: Role, i: Identity)
    requires Linked(s, o) && o.phase == Queued && o.Vol(r).sourceVolume.None? && Sole(s, i)
    ensures Linked(s, o.WithVol(r, o.Vol(r).(sourceVolume := Some(i))))
  {
    hide SourcesNamed, Known, Audited, CommitOk, Keeps, Shape, Sole;
    IdentityShape(s.op.value, o, r, i);
    IdentityHolds(s, o, r, i);
  }

  lemma IdentityShape(saved: Operation, o: Operation, r: Role, i: Identity)
    requires Shape(o) && o.phase == Queued && Keeps(saved, o) && o.Vol(r).sourceVolume.None?
    ensures Shape(o.WithVol(r, o.Vol(r).(sourceVolume := Some(i))))
    ensures Keeps(saved, o.WithVol(r, o.Vol(r).(sourceVolume := Some(i))))
  {
  }

  lemma IdentityHolds(s: State, o: Operation, r: Role, i: Identity)
    requires SourcesNamed(s, o) && Known(s, o) && Audited(s, o) && CommitOk(s, o) && Sole(s, i)
    ensures var o' := o.WithVol(r, o.Vol(r).(sourceVolume := Some(i)));
            SourcesNamed(s, o') && Known(s, o') && Audited(s, o') && CommitOk(s, o')
  {
    var o' := o.WithVol(r, o.Vol(r).(sourceVolume := Some(i)));
    forall q: Role
      ensures o'.Vol(q) == o.Vol(q).(sourceVolume := o'.Vol(q).sourceVolume)
      ensures forall g :: Accepted(s, o', q, g) == Accepted(s, o, q, g)
    {
    }
  }

  function WithOriginal(o: Operation, r: Role, gib: u64): Operation {
    if r.Home? then o.(originalHome := gib) else o.(originalTemporary := gib)
  }

  lemma OriginalNoted(s: State, o: Operation, r: Role, gib: u64)
    requires Linked(s, o) && o.phase == Queued
    ensures Linked(s, WithOriginal(o, r, gib))
  {
    hide Linked;
    LinkedIgnores(s, o, WithOriginal(o, r, gib));
  }

  /** Why a role's source cannot be recorded: no claim to bind, or one that is not as it should be. */
  predicate Undiscoverable(s: State, o: Operation, r: Role) {
    match o.Vol(r).source
    case None =>
      if DefaultClaim(r) !in s.claims then r == Home || o.Vol(r).target.Some?
      else
        var claim := s.claims[DefaultClaim(r)];
        !claim.ours || claim.deleting || BindingFromClaim(DefaultClaim(r), claim).None?
    case Some(b) =>
      || Wrong(s, b, true) || Unidentified(s, b)
      || (o.Vol(r).target.Some? && o.Vol(r).target.value >= b.gib)
  }

  method FindSource(w: World, o: Operation, r: Role) returns (o': Operation, ok: bool)
    requires w.Valid() && IsActive(w.s) && Linked(w.s, o) && o.phase == Queued && o.Vol(r).source.None?
    modifies w
    ensures w.Valid() && IsActive(w.s) && old(w.acts) <= w.acts && Between(old(w.s), w.s)
    ensures Linked(w.s, o') && (o' == o || (o'.Vol(r).source.Some? && o' == Sourced(o, r, o'.Vol(r).source.value)))
    ensures ok && (r == Home || o.Vol(r).target.Some?) ==> o'.Vol(r).source.Some?
    ensures o'.phase == o.phase && OtherRoleSame(o, o', r) && (ok && o'.Vol(r).source.None? ==> Identified(o', r))
    ensures w.quiet ==> w.s == old(w.s) && (!ok ==> Undiscoverable(w.s, o', r))
  {
    hide Inv, Between, Run, Linked, BindingFromClaim, IsActive, Undiscoverable, OtherRoleSame, Identified, Sourced;
    w.Interfere();
    LinkedAfter(old(w.s), w.s, o);
    SelfSame(o, r);
    NotFound(w.s, o, r);
    var n := DefaultClaim(r);
    if n !in w.s.claims {
      return o, r == Temporary && o.temporary.target.None?;
    }
    var claim := w.s.claims[n];
    var b := BindingFromClaim(n, claim);
    if !claim.ours || claim.deleting || b.None? {
      return o, false;
    }
    SourceFound(w.s, o, r, b.value);
    SourcedSame(o, r, b.value);
    return Sourced(o, r, b.value), true;
  }

  lemma SelfSame(o: Operation, r: Role)
    ensures OtherRoleSame(o, o, r)
  {
  }

  lemma SourcedSame(o: Operation, r: Role, b: Binding)
    ensures OtherRoleSame(o, Sourced(o, r, b), r)
    ensures Sourced(o, r, b).Vol(r).source == Some(b) && Sourced(o, r, b).phase == o.phase
  {
  }

  /** What is said of a role whose source is not recorded yet. */
  lemma NotFound(s: State, o: Operation, r: Role)
    requires o.Vol(r).source.None?
    ensures Undiscoverable(s, o, r) <==>
              if DefaultClaim(r) !in s.claims then r == Home || o.Vol(r).target.Some?
              else
                || !s.claims[DefaultClaim(r)].ours || s.claims[DefaultClaim(r)].deleting
                || BindingFromClaim(DefaultClaim(r), s.claims[DefaultClaim(r)]).None?
    ensures r == Temporary && o.Vol(r).target.None? ==> Identified(o, r)
  {
    hide BindingFromClaim;
  }

  predicate Identified(o: Operation, r: Role) {
    && (r == Home || o.Vol(r).target.Some? ==> o.Vol(r).source.Some?)
    && (o.Vol(r).source.Some? ==> o.Vol(r).sourceVolume.Some?)
    && (o.Vol(r).source.Some? && o.Vol(r).target.Some? ==>
          o.Vol(r).source.value.gib > o.Vol(r).target.value)
    && SizeNoted(o, r)
  }

  predicate OtherRoleSame(o: Operation, o': Operation, r: Role) {
    o'.phase == o.phase && forall q: Role :: q != r ==> o'.Vol(q) == o.Vol(q) && o'.Original(q) == o.Original(q)
  }

  lemma OtherOriginal(o: Operation, r: Role, gib: u64)
    ensures OtherRoleSame(o, o, r) && OtherRoleSame(o, WithOriginal(o, r, gib), r)
    ensures WithOriginal(o, r, gib).Vol(r) == o.Vol(r) && WithOriginal(o, r, gib).Original(r) == gib
  {
  }

  lemma OtherTrans(o: Operation, p: Operation, q: Operation, r: Role)
    requires OtherRoleSame(o, p, r) && OtherRoleSame(p, q, r)
    ensures OtherRoleSame(o, q, r)
  {
  }

  lemma WithVolSame(o: Operation, r: Role, v: Volume)
    ensures OtherRoleSame(o, o.WithVol(r, v), r)
    ensures o.WithVol(r, v).Vol(r) == v && o.WithVol(r, v).Original(r) == o.Original(r)
  {
  }

  method RecordIdentity(w: World, o: Operation, r: Role) returns (o': Operation, ok: bool)
    requires w.Valid() && IsActive(w.s) && Linked(w.s, o) && o.phase == Queued && o.Vol(r).source.Some?
    modifies w
    ensures w.Valid() && IsActive(w.s) && old(w.acts) <= w.acts && Between(old(w.s), w.s)
    ensures Linked(w.s, o') && OtherRoleSame(o, o', r) && o'.Vol(r).source == o.Vol(r).source
    ensures o'.Original(r) == o.Original(r)
    ensures ok ==> o'.Vol(r).sourceVolume.Some?
    ensures w.quiet ==> w.s == old(w.s) && (!ok ==> Unidentified(w.s, o.Vol(r).source.value))
  {
    hide Inv, Between, Run, Linked, Identifies, Unidentified, Sole, OtherRoleSame, IsActive;
    SelfSame(o, r);
    if o.Vol(r).sourceVolume.Some? {
      BetweenRefl(w.s);
      return o, true;
    }
    var i := VolumeIdentity(w, o.Vol(r).source.value);
    LinkedAfter(old(w.s), w.s, o);
    if i.Err? {
      return o, false;
    }
    KnownIdentity(w.s, o.Vol(r).source.value, i.value);
    IdentityFound(w.s, o, r, i.value);
    WithVolSame(o, r, o.Vol(r).(sourceVolume := Some(i.value)));
    return o.WithVol(r, o.Vol(r).(sourceVolume := Some(i.value))), true;
  }

  method CheckFound(w: World, o: Operation, r: Role) returns (o': Operation, ok: bool)
    requires w.Valid() && IsActive(w.s) && Linked(w.s, o) && o.phase == Queued && o.Vol(r).source.Some?
    modifies w
    ensures w.Valid() && IsActive(w.s) && old(w.acts) <= w.acts && Between(old(w.s), w.s)
    ensures Linked(w.s, o') && OtherRoleSame(o, o', r)
    ensures ok ==> Identified(o', r)
    ensures w.quiet ==> w.s == old(w.s) && (!ok ==> Undiscoverable(w.s, o', r))
  {
    hide Inv, Between, Run, Linked, ClaimMatches, IsActive, OtherRoleSame, WithOriginal, Wrong, Unidentified;
    var b := o.Vol(r).source.value;
    var claim := ReadClaim(w, b, true);
    LinkedAfter(old(w.s), w.s, o);
    OtherOriginal(o, r, b.gib);
    if claim.Err? {
      return o, false;
    }
    OriginalNoted(w.s, o, r, b.gib);
    o' := WithOriginal(o, r, b.gib);
    ghost var t := w.s;
    o', ok := RecordIdentity(w, o', r);
    OtherTrans(o, WithOriginal(o, r, b.gib), o', r);
    BetweenTrans(old(w.s), t, w.s);
    ok := ok && !(o'.Vol(r).target.Some? && o'.Vol(r).target.value >= b.gib);
  }

  /** What one role contributes to the record; a failed step leaves a true record too. */
  method DiscoverSource(w: World, o: Operation, r: Role) returns (o': Operation, ok: bool)
    requires w.Valid() && IsActive(w.s) && Linked(w.s, o) && o.phase == Queued
    modifies w
    ensures w.Valid() && IsActive(w.s) && old(w.acts) <= w.acts && Between(old(w.s), w.s)
    ensures Linked(w.s, o') && OtherRoleSame(o, o', r)
    ensures ok ==> Identified(o', r)
    ensures w.quiet ==> w.s == old(w.s) && (!ok ==> Undiscoverable(w.s, o', r))
  {
    hide Inv, Between, Run, Linked, Undiscoverable, IsActive, WithOriginal, OtherRoleSame, Identified, Sourced;
    OtherOriginal(o, r, 0);
    o', ok := o, true;
    if o.Vol(r).source.None? {
      o', ok := FindSource(w, o, r);
      if !ok || o'.Vol(r).source.None? {
        return;
      }
    } else {
      BetweenRefl(w.s);
    }
    ghost var t, found := w.s, o';
    o', ok := CheckFound(w, o', r);
    BetweenTrans(old(w.s), t, w.s);
    OtherTrans(o, found, o', r);
  }

  lemma LinkedAfter(s: State, s': State, o: Operation)
    requires Between(s, s') && Linked(s, o)
    ensures Linked(s', o)
  {
  }

  lemma KnownIdentity(s: State, b: Binding, i: Identity)
    requires Identifies(s, b, i)
    ensures Sole(s, i)
  {
  }

  predicate Discovered(o: Operation) {
    && o.home.source.Some? && SizeNoted(o, Home) && SizeNoted(o, Temporary)
    && forall r: Role :: o.Vol(r).target.Some? ==>
         && o.Vol(r).source.Some? && o.Vol(r).sourceVolume.Some?
         && o.Vol(r).source.value.gib > o.Vol(r).target.value
  }

  /** `discover_shrink_sources`. */
  method DiscoverSources(w: World, o: Operation) returns (o': Operation, ok: bool)
    requires w.Valid() && IsActive(w.s) && Linked(w.s, o) && o.phase == Queued
    modifies w
    ensures w.Valid() && IsActive(w.s) && old(w.acts) <= w.acts && Between(old(w.s), w.s)
    ensures Linked(w.s, o') && o'.phase == Queued
    ensures ok ==> Discovered(o')
    ensures w.quiet ==> w.s == old(w.s) && (!ok ==> exists r: Role :: Undiscoverable(w.s, o', r))
  {
    hide Inv, Between, Run, Linked, Undiscoverable, IsActive;
    o', ok := DiscoverSource(w, o, Home);
    if !ok {
      return;
    }
    ghost var t := w.s;
    ghost var home := o';
    assert home.home == home.Vol(Home) && Identified(home, Home);
    o', ok := DiscoverSource(w, o', Temporary);
    assert o'.Vol(Home) == home.Vol(Home) && o'.Original(Home) == home.Original(Home);
    BetweenTrans(old(w.s), t, w.s);
  }

  // -------------------------------------------------------------------------- helpers

  /** The copy of this role is over and reported the measured usage. */
  ghost predicate CopyDone(s: State, o: Operation, r: Role) {
    && Accepted(s, o, r, Copy)
    && var h := HelperName(o.id, r, Copy);
       h in s.helpers ==> s.helpers[h].phase != Running
  }

  ghost predicate KeepsCopies(s: State, s': State, o: Operation, r: Role) {
    forall q: Role :: q != r && CopyDone(s, o, q) ==> CopyDone(s', o, q)
  }

  lemma CopiesStay(s: State, s': State, o: Operation)
    requires HelpersRely(s, s') && s'.reports == s.reports
    ensures forall q: Role :: CopyDone(s, o, q) ==> CopyDone(s', o, q)
  {
    forall q: Role | CopyDone(s, o, q) ensures CopyDone(s', o, q) {
      assert Accepted(s', o, q, Copy);
    }
  }

  lemma HelperAsked(s: State, o: Operation, r: Role, stage: Stage)
    requires Linked(s, o) && IsActive(s) && StageOf(o.phase) == Some(stage)
    requires HelperName(o.id, r, stage) !in s.helpers && (stage != Preflight ==> o.Vol(r).target.Some?)
    ensures HandlerEnabled(CreateHelper(r, stage), s)
    ensures var s' := HandlerEffect(CreateHelper(r, stage), s);
            && s'.op == s.op && s'.ws == s.ws && s'.committed == s.committed
            && s'.helpers == s.helpers[HelperName(o.id, r, stage) := NewHelper(s, r, stage)] && s'.claims == s.claims
            && KeepsCopies(s, s', o, r)
  {
    hide OpOk;
    var s' := HandlerEffect(CreateHelper(r, stage), s);
    forall q: Role | q != r && CopyDone(s, o, q) ensures CopyDone(s', o, q) {
      assert Accepted(s', o, q, Copy);
    }
  }

  lemma CanReport(s: State, o: Operation, r: Role, stage: Stage)
    requires Inv(s) && Linked(s, o) && IsActive(s) && StageOf(o.phase) == Some(stage) && stage in {Copy, Verify}
    requires HelperName(o.id, r, stage) in s.helpers
    requires s.helpers[HelperName(o.id, r, stage)].phase == Succeeded
    requires o.Vol(r).target.Some? && o.Vol(r).used == Some(s.helpers[HelperName(o.id, r, stage)].usage)
    ensures HandlerEnabled(Report(r, stage), s)
    ensures HandlerEffect(Report(r, stage), s)
            == s.(reports := s.reports[(r, stage) := s.helpers[HelperName(o.id, r, stage)].usage])
  {
    hide Linked, Inv;
    SavedUsage(s, o, r);
    LinkedSame(s, o);
  }

  lemma LinkedSame(s: State, o: Operation)
    requires Linked(s, o)
    ensures s.op.Some? && s.op.value.id == o.id && s.op.value.phase == o.phase
  {
  }

  lemma Reported(s: State, s': State, o: Operation, r: Role, stage: Stage)
    requires HelperName(o.id, r, stage) in s.helpers
    requires s.helpers[HelperName(o.id, r, stage)].phase == Succeeded
    requires o.Vol(r).used == Some(s.helpers[HelperName(o.id, r, stage)].usage)
    requires s' == s.(reports := s.reports[(r, stage) := s.helpers[HelperName(o.id, r, stage)].usage])
    ensures Accepted(s', o, r, stage) && KeepsCopies(s, s', o, r)
    ensures stage == Copy ==> CopyDone(s', o, r)
    ensures Twin(s, o.Vol(r)) ==> Twin(s', o.Vol(r))
  {
    forall q: Role | q != r && CopyDone(s, o, q) ensures CopyDone(s', o, q) {
      assert Accepted(s', o, q, Copy);
    }
  }

  lemma SavedUsage(s: State, o: Operation, r: Role)
    requires Inv(s) && Linked(s, o) && o.phase in {Copying, Verifying} && o.Vol(r).target.Some?
    ensures s.op.value.Vol(r).used == o.Vol(r).used
  {
  }

  /** A verification Pod that has succeeded compared equal volumes. */
  lemma VerifySaw(s: State, o: Operation, r: Role)
    requires Linked(s, o) && o.phase == Verifying
    requires HelperName(o.id, r, Verify) in s.helpers
    requires s.helpers[HelperName(o.id, r, Verify)].phase == Succeeded
    ensures Twin(s, o.Vol(r))
  {
  }

  lemma TwinAfter(s: State, s': State, o: Operation, r: Role)
    requires Between(s, s') && Linked(s, o) && o.phase == Verifying && Twin(s, o.Vol(r))
    ensures Twin(s', o.Vol(r))
  {
    hide SourcesHeld, DestinationsHeld, Twins, Audited, Known, Keeps, Shape, CommitOk;
    hide PvsRely, HelpersRely, WorkloadRely, Fresh, UserDataSafe, HelpersOk, KeepsLinks, Twin, KeepsData, KeepsGuarded;
    SteadyTwin(s, s', o, r);
  }

  /** What a finished helper of this stage has shown. */
  ghost predicate Shown(s: State, o: Operation, r: Role, stage: Stage, u: Usage) {
    o.Vol(r).used == Some(u) ==>
      && (stage == Copy ==> CopyDone(s, o, r))
      && (stage == Verify ==> Accepted(s, o, r, Verify) && Twin(s, o.Vol(r)))
  }

  lemma ShownAfter(s: State, s': State, o: Operation, r: Role, stage: Stage, u: Usage)
    requires Between(s, s') && Linked(s, o) && StageOf(o.phase) == Some(stage) && Shown(s, o, r, stage, u)
    ensures Shown(s', o, r, stage, u) && KeepsCopies(s, s', o, r)
  {
    hide Between, Linked, Twin, CopyDone, HelpersRely;
    BetweenParts(s, s');
    CopiesStay(s, s', o);
    if o.Vol(r).used == Some(u) && stage == Verify {
      TwinAfter(s, s', o, r);
    }
  }

  lemma CopiesTrans(s: State, t: State, u: State, o: Operation, r: Role)
    requires KeepsCopies(s, t, o, r) && KeepsCopies(t, u, o, r)
    ensures KeepsCopies(s, u, o, r)
  {
  }

  lemma CopiesBetween(s: State, s': State, o: Operation, r: Role)
    requires Between(s, s')
    ensures KeepsCopies(s, s', o, r)
  {
    hide Between, CopyDone, HelpersRely;
    BetweenParts(s, s');
    CopiesStay(s, s', o);
  }

  /** Everything the calls of one helper run leave as it was, together. */
  ghost predicate Carried(s: State, s': State, o: Operation, r: Role) {
    Unsaved(s, s') && KeepsCopies(s, s', o, r) && Linked(s', o)
  }

  lemma CarryOn(s: State, t: State, u: State, o: Operation, r: Role)
    requires Carried(s, t, o, r) && Between(t, u)
    ensures Carried(s, u, o, r)
  {
    hide KeepsCopies, Linked;
    BetweenUnsaved(t, u);
    UnsavedTrans(s, t, u);
    CopiesBetween(t, u, o, r);
    CopiesTrans(s, t, u, o, r);
    LinkedAfter(t, u, o);
  }

  lemma CarryDone(s: State, t: State, u: State, o: Operation, r: Role)
    requires Carried(s, t, o, r) && Unsaved(t, u) && KeepsCopies(t, u, o, r)
    ensures Carried(s, u, o, r)
  {
    hide KeepsCopies, Linked;
    UnsavedTrans(s, t, u);
    CopiesTrans(s, t, u, o, r);
    assert Linked(t, o);
  }

  lemma CarryStart(s: State, o: Operation, r: Role)
    requires Inv(s) && Linked(s, o)
    ensures Carried(s, s, o, r)
  {
  }

  /** The Pod of a stage, read or created; `pod` is what the API returned. */
  method ObtainHelper(w: World, o: Operation, r: Role, stage: Stage) returns (pod: Outcome<Helper>)
    requires w.Valid() && IsActive(w.s) && Linked(w.s, o) && StageOf(o.phase) == Some(stage)
    requires stage != Preflight ==> o.Vol(r).target.Some?
    modifies w
    ensures w.Valid() && IsActive(w.s) && old(w.acts) <= w.acts && Carried(old(w.s), w.s, o, r)
    ensures pod.Ok? ==>
              && HelperName(o.id, r, stage) in w.s.helpers
              && w.s.helpers[HelperName(o.id, r, stage)] == pod.value
    ensures w.quiet ==> pod.Ok? && w.s.claims == old(w.s).claims
  {
    hide Inv, Between, Run, Linked, HandlerEnabled, HandlerEffect, KeepsCopies, KeepsLinks, StageOf, NewHelper;
    CarryStart(w.s, o, r);
    w.Interfere();
    CarryOn(old(w.s), old(w.s), w.s, o, r);
    var fails := w.Fails();
    if fails {
      return Err;
    }
    var h := HelperName(o.id, r, stage);
    if h in w.s.helpers {
      return Ok(w.s.helpers[h]);
    }
    ghost var t := w.s;
    // the NetworkPolicy that isolates helpers is checked or created first
    w.Interfere();
    CarryOn(old(w.s), t, w.s, o, r);
    fails := w.Fails();
    if fails {
      return Err;
    }
    if h in w.s.helpers {
      return Err;
    }
    ghost var u := w.s;
    HelperAsked(u, o, r, stage);
    w.Do(CreateHelper(r, stage));
    CarryDone(old(w.s), u, w.s, o, r);
    return Ok(w.s.helpers[h]);
  }

  /** Take note of a helper that has just been seen to have succeeded. */
  method NoteResult(w: World, o: Operation, r: Role, stage: Stage, u: Usage)
    requires w.Valid() && IsActive(w.s) && Linked(w.s, o) && StageOf(o.phase) == Some(stage)
    requires stage != Preflight ==> o.Vol(r).target.Some?
    requires HelperName(o.id, r, stage) in w.s.helpers
    requires w.s.helpers[HelperName(o.id, r, stage)].phase == Succeeded
    requires w.s.helpers[HelperName(o.id, r, stage)].usage == u
    modifies w
    ensures w.Valid() && IsActive(w.s) && old(w.acts) <= w.acts && Carried(old(w.s), w.s, o, r)
    ensures Shown(w.s, o, r, stage, u) && w.s.claims == old(w.s).claims && w.s.helpers == old(w.s).helpers
  {
    hide Inv, Between, Run, Linked, HandlerEnabled, HandlerEffect, KeepsCopies, KeepsLinks, CopyDone, Twin, Accepted;
    CarryStart(w.s, o, r);
    if stage in {Copy, Verify} && o.Vol(r).used == Some(u) {
      ghost var t := w.s;
      if stage == Verify {
        VerifySaw(t, o, r);
      }
      CanReport(t, o, r, stage);
      w.Do(Report(r, stage));
      Reported(t, w.s, o, r, stage);
      CarryDone(old(w.s), t, w.s, o, r);
    }
  }

  /** The claims a helper is to mount are not as recorded. */
  predicate ClaimsWrong(s: State, o: Operation, r: Role, stage: Stage) {
    || o.Vol(r).source.None? || SourceWrong(s, o, r)
    || (stage != Preflight && o.Vol(r).destination.Some? && Wrong(s, o.Vol(r).destination.value, false))
  }

  /** A helper Pod whose result cannot be taken: failed, going, not the recorded one, or not to be trusted. */
  predicate PodWrong(s: State, o: Operation, r: Role, stage: Stage, pod: Helper) {
    var h := HelperName(o.id, r, stage);
    || pod.phase == PodFailed || pod.deleting || !Mounts(pod, o, r, stage)
    || (h in o.helperUids && o.helperUids[h] != pod.uid)
    || (pod.phase == Succeeded && stage != Preflight && o.Vol(r).destination.Some?
        && Wrong(s, o.Vol(r).destination.value, true))
  }

  /** Why a stage cannot go on. */
  predicate StageWrong(s: State, o: Operation, r: Role, stage: Stage) {
    var h := HelperName(o.id, r, stage);
    ClaimsWrong(s, o, r, stage) || (h in s.helpers && PodWrong(s, o, r, stage, s.helpers[h]))
  }

  /** The stage's helper is at work. */
  predicate AtWork(s: State, o: Operation, r: Role, stage: Stage) {
    var h := HelperName(o.id, r, stage);
    h in s.helpers && s.helpers[h].phase == Running
  }

  /** What the answer about a stage says of the state: an error has its reason, and otherwise it is the Pod's. */
  predicate StageReply(s: State, o: Operation, r: Role, stage: Stage, res: Outcome<Option<Usage>>) {
    match res
    case Err => StageWrong(s, o, r, stage)
    case Ok(None) => AtWork(s, o, r, stage)
    case Ok(Some(u)) => Ended(s, o, r, stage, u)
  }

  predicate Ended(s: State, o: Operation, r: Role, stage: Stage, u: Usage) {
    var h := HelperName(o.id, r, stage);
    h in s.helpers && s.helpers[h].phase == Succeeded && s.helpers[h].usage == u
  }

  method CheckClaims(w: World, o: Operation, r: Role, stage: Stage) returns (ok: bool)
    requires w.Valid() && IsActive(w.s) && Linked(w.s, o) && o.Vol(r).source.Some?
    modifies w
    ensures w.Valid() && IsActive(w.s) && old(w.acts) <= w.acts && Between(old(w.s), w.s)
    ensures w.quiet ==> w.s == old(w.s) && (!ok ==> ClaimsWrong(w.s, o, r, stage))
  {
    hide Inv, Between, Run, Linked, Wrong;
    var claim := ReadClaim(w, o.Vol(r).source.value, true);
    if claim.Err? {
      return false;
    }
    if stage != Preflight && o.Vol(r).destination.Some? {
      ghost var t := w.s;
      var seen := ReadClaim(w, o.Vol(r).destination.value, false);
      BetweenTrans(old(w.s), t, w.s);
      return seen.Ok?;
    }
    return true;
  }

  /** The volumes a helper of this stage is started with. */
  predicate Mounts(pod: Helper, o: Operation, r: Role, stage: Stage) {
    && (stage != Preflight ==> pod.source == NameOf(o.Vol(r).source))
    && pod.dest == NameOf(o.Vol(r).destination)
  }

  /**
   `shrink_pod` and `helper_pod_result`: a usage is returned only for the recorded
   Pod, unchanged, that has succeeded; a usage equal to the measured one then means
   the copy is over, or that both volumes held the same data.
   */
  method ShrinkPod(w: World, o: Operation, r: Role, stage: Stage)
    returns (o': Operation, res: Outcome<Option<Usage>>)
    requires w.Valid() && IsActive(w.s) && Linked(w.s, o) && StageOf(o.phase) == Some(stage)
    requires stage != Preflight ==> o.Vol(r).target.Some?
    modifies w
    ensures w.Valid() && IsActive(w.s) && old(w.acts) <= w.acts
    ensures o' == o.(helperUids := o'.helperUids) && Carried(old(w.s), w.s, o, r)
    ensures res.Ok? && res.value.Some? ==> Shown(w.s, o, r, stage, res.value.value)
    ensures w.quiet ==> StageReply(w.s, o', r, stage, res)
  {
    hide Inv, Between, Run, Linked, Shown, Carried, StageOf, ClaimsWrong, PodWrong, StageReply, Mounts;
    var pod := SeeHelper(w, o, r, stage);
    if pod.Err? {
      if w.quiet {
        ClaimsReply(w.s, o, r, stage);
      }
      return o, Err;
    }
    ghost var v := w.s;
    CarriedLinks(old(w.s), v, o, r);
    o', res := HelperResult(w, o, r, stage, pod.value);
    CarryCarried(old(w.s), v, w.s, o, r);
    if w.quiet {
      PodReply(w.s, o', r, stage, pod.value, res);
    }
  }

  lemma ClaimsReply(s: State, o: Operation, r: Role, stage: Stage)
    requires ClaimsWrong(s, o, r, stage)
    ensures StageReply(s, o, r, stage, Err)
  {
    hide ClaimsWrong, PodWrong;
  }

  lemma PodReply(s: State, o: Operation, r: Role, stage: Stage, pod: Helper, res: Outcome<Option<Usage>>)
    requires HelperName(o.id, r, stage) in s.helpers && s.helpers[HelperName(o.id, r, stage)] == pod
    requires res.Err? ==> PodWrong(s, o, r, stage, pod)
    requires res.Ok? ==> pod.phase != PodFailed
    requires res.Ok? ==> res.value == if pod.phase == Succeeded then Some(pod.usage) else None
    ensures StageReply(s, o, r, stage, res)
  {
    hide ClaimsWrong, PodWrong;
  }

  /** Both claims checked, then the Pod of the stage as the API returned it. */
  method SeeHelper(w: World, o: Operation, r: Role, stage: Stage) returns (pod: Outcome<Helper>)
    requires w.Valid() && IsActive(w.s) && Linked(w.s, o) && StageOf(o.phase) == Some(stage)
    requires stage != Preflight ==> o.Vol(r).target.Some?
    modifies w
    ensures w.Valid() && IsActive(w.s) && old(w.acts) <= w.acts && Carried(old(w.s), w.s, o, r)
    ensures pod.Ok? && pod.value.phase == Succeeded ==> Shown(w.s, o, r, stage, pod.value.usage)
    ensures w.quiet ==>
              if pod.Err? then ClaimsWrong(w.s, o, r, stage)
              else HelperName(o.id, r, stage) in w.s.helpers
                   && w.s.helpers[HelperName(o.id, r, stage)] == pod.value
  {
    hide Inv, Between, Run, Linked, Shown, Carried, StageOf, SourceWrong, Wrong;
    CarryStart(w.s, o, r);
    if o.Vol(r).source.None? {
      return Err;
    }
    var ok := CheckClaims(w, o, r, stage);
    CarryOn(old(w.s), old(w.s), w.s, o, r);
    CarriedLinks(old(w.s), w.s, o, r);
    if !ok {
      return Err;
    }
    ghost var t := w.s;
    pod := ObtainHelper(w, o, r, stage);
    CarryCarried(old(w.s), t, w.s, o, r);
    if pod.Err? {
      return;
    }
    CarriedLinks(old(w.s), w.s, o, r);
    if pod.value.phase == Succeeded {
      ghost var u := w.s;
      NoteResult(w, o, r, stage, pod.value.usage);
      CarryCarried(old(w.s), u, w.s, o, r);
    }
  }

  method HelperResult(w: World, o: Operation, r: Role, stage: Stage, pod: Helper)
    returns (o': Operation, res: Outcome<Option<Usage>>)
    requires w.Valid() && IsActive(w.s) && Linked(w.s, o) && StageOf(o.phase) == Some(stage)
    requires pod.phase == Succeeded ==> Shown(w.s, o, r, stage, pod.usage)
    modifies w
    ensures w.Valid() && IsActive(w.s) && old(w.acts) <= w.acts
    ensures o' == o.(helperUids := o'.helperUids) && Carried(old(w.s), w.s, o, r)
    ensures res.Ok? && res.value.Some? ==> Shown(w.s, o, r, stage, res.value.value)
    ensures res.Ok? ==>
              && HelperName(o.id, r, stage) in o'.helperUids
              && o'.helperUids[HelperName(o.id, r, stage)] == pod.uid
              && (res.value == if pod.phase == Succeeded then Some(pod.usage) else None)
              && pod.phase != PodFailed && Mounts(pod, o, r, stage)
    ensures w.quiet ==> w.s == old(w.s) && (res.Err? ==> PodWrong(w.s, o', r, stage, pod))
  {
    hide Inv, Between, Run, Linked, Shown, Carried, StageOf, Mounts, Wrong;
    var h := HelperName(o.id, r, stage);
    var ok := Trusted(w, o, r, stage, pod);
    if !ok {
      return o, Err;
    }
    o' := o.(helperUids := o.helperUids[h := pod.uid]);
    match pod.phase
    case Running => return o', Ok(None);
    case PodFailed => return o', Err;
    case Succeeded =>
      ghost var x := w.s;
      CarriedLinks(old(w.s), x, o, r);
      ok := TakeUsage(w, o, r, stage, pod.usage);
      CarryCarried(old(w.s), x, w.s, o, r);
      return o', if ok then Ok(Some(pod.usage)) else Err;
  }

  /** The Pod is the operation's own, as recorded: its owner, its policy, its specification and its UID. */
  method Trusted(w: World, o: Operation, r: Role, stage: Stage, pod: Helper) returns (ok: bool)
    requires w.Valid() && IsActive(w.s) && Linked(w.s, o) && StageOf(o.phase) == Some(stage)
    requires pod.phase == Succeeded ==> Shown(w.s, o, r, stage, pod.usage)
    modifies w
    ensures w.Valid() && IsActive(w.s) && old(w.acts) <= w.acts && Carried(old(w.s), w.s, o, r)
    ensures pod.phase == Succeeded ==> Shown(w.s, o, r, stage, pod.usage)
    ensures ok ==>
              var h := HelperName(o.id, r, stage);
              !pod.deleting && Mounts(pod, o, r, stage) && (h in o.helperUids ==> o.helperUids[h] == pod.uid)
    ensures w.quiet ==> w.s == old(w.s) && (!ok ==> PodWrong(w.s, o, r, stage, pod))
  {
    hide Inv, Between, Run, Linked, Shown, Carried, StageOf, Mounts, Wrong;
    CarryStart(w.s, o, r);
    w.Interfere();
    CarryOn(old(w.s), old(w.s), w.s, o, r);
    if pod.phase == Succeeded {
      ShownAfter(old(w.s), w.s, o, r, stage, pod.usage);
    }
    var fails := w.Fails();
    var h := HelperName(o.id, r, stage);
    return !fails && !pod.deleting && Mounts(pod, o, r, stage)
           && (h in o.helperUids ==> o.helperUids[h] == pod.uid);
  }

  /** The evidence of a Pod that succeeded, and the replacement bound at its size. */
  method TakeUsage(w: World, o: Operation, r: Role, stage: Stage, u: Usage) returns (ok: bool)
    requires w.Valid() && IsActive(w.s) && Linked(w.s, o) && StageOf(o.phase) == Some(stage)
    requires Shown(w.s, o, r, stage, u)
    modifies w
    ensures w.Valid() && IsActive(w.s) && old(w.acts) <= w.acts
    ensures Carried(old(w.s), w.s, o, r) && Shown(w.s, o, r, stage, u)
    ensures w.quiet ==>
              && w.s == old(w.s)
              && (!ok ==> stage != Preflight && o.Vol(r).destination.Some?
                          && Wrong(w.s, o.Vol(r).destination.value, true))
  {
    hide Inv, Between, Run, Linked, Shown, Carried, StageOf, ClaimMatches, Wrong;
    CarryStart(w.s, o, r);
    var fails := w.Fails();
    if fails {
      return false;
    }
    if stage == Preflight || o.Vol(r).destination.None? {
      return true;
    }
    var seen := ReadClaim(w, o.Vol(r).destination.value, true);
    CarryOn(old(w.s), old(w.s), w.s, o, r);
    ShownAfter(old(w.s), w.s, o, r, stage, u);
    return seen.Ok?;
  }

  lemma CarriedLinks(s: State, s': State, o: Operation, r: Role)
    requires Carried(s, s', o, r)
    ensures Linked(s', o) && Unsaved(s, s') && KeepsCopies(s, s', o, r)
  {
  }

  lemma CarryCarried(s: State, t: State, u: State, o: Operation, r: Role)
    requires Carried(s, t, o, r) && Carried(t, u, o, r)
    ensures Carried(s, u, o, r)
  {
    hide KeepsCopies, Linked;
    UnsavedTrans(s, t, u);
    CopiesTrans(s, t, u, o, r);
  }
}
