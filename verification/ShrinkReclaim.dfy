/**
 One `delete_shrink_claim` call reads a claim, its persistent volume and its
 Longhorn volume, and then refuses, waits, reports done, or makes exactly one
 change. `Decide` is that decision; the lemmas say when it reports done and that
 repeated calls, with Kubernetes finishing what was asked of it, always get there.
 */
module ShrinkReclaim {
  import opened Options
  import opened ShrinkTypes
  import opened ShrinkCluster

  datatype Verdict = Refuse | Wait | Done | PatchPolicy | RemoveClaim | RemovePv

  /** What is still there of one reclaimed source. */
  datatype Remains = Remains(claim: Option<Claim>, pv: Option<Pv>, backend: Option<nat>)

  predicate Gone(v: Remains, i: Identity) {
    v.claim.None? && v.pv.None? && (i.longhorn.Some? ==> v.backend.None?)
  }

  /**
   The decision of one call. Done is reported exactly when nothing is left of a
   validly identified source; every change is to the recorded objects only, and
   the claim is deleted only once its volume's policy is seen to be Delete.
   */
  function Decide(claim: Option<Claim>, pv: Option<Pv>, backend: Option<nat>, mounted: bool,
                  b: Binding, i: Identity): (d: Verdict)
    ensures d == Done <==>
            && Gone(Remains(claim, pv, backend), i) && b.IsValid()
            && (i.driver.Longhorn? ==> i.longhorn.Some?)
    ensures d in {PatchPolicy, RemoveClaim, RemovePv} ==>
              && pv.Some? && PvMatches(i.pv, pv.value, b, i)
              && (claim.Some? ==> claim.value.uid == b.uid && claim.value.ours && !mounted)
              && (i.longhorn.Some? && backend.Some? ==> backend == i.longhorn)
    ensures d == PatchPolicy ==> !pv.value.policyDelete
    ensures d == RemoveClaim ==> claim.Some? && !claim.value.deleting && pv.value.policyDelete
    ensures d == RemovePv ==> claim.None? && pv.value.policyDelete && pv.value.released && !pv.value.deleting
  {
    if !b.IsValid() || (pv.Some? && !PvMatches(i.pv, pv.value, b, i)) then Refuse
    else if i.longhorn.Some? && backend.Some? && backend != i.longhorn then Refuse
    else if i.longhorn.Some? && backend.Some? && claim.None? && pv.None? then Wait
    else if i.longhorn.None? && i.driver.Longhorn? then Refuse
    else if claim.None? then
      if pv.None? then Done
      else if !pv.value.policyDelete then PatchPolicy
      else if pv.value.released && !pv.value.deleting then RemovePv
      else Wait
    else if claim.value.uid != b.uid then Refuse
    else if claim.value.deleting then Wait
    else if !claim.value.ours || mounted || pv.None? then Refuse
    else if !pv.value.policyDelete then PatchPolicy
    else RemoveClaim
  }

  /** The cluster state after the call's one change has been accepted. */
  function Called(v: Remains, b: Binding, i: Identity): Remains {
    match Decide(v.claim, v.pv, v.backend, false, b, i)
    case PatchPolicy => if v.pv.Some? then v.(pv := Some(v.pv.value.(policyDelete := true))) else v
    case RemoveClaim => if v.claim.Some? then v.(claim := Some(v.claim.value.(deleting := true))) else v
    case RemovePv => if v.pv.Some? then v.(pv := Some(v.pv.value.(deleting := true))) else v
    case _ => v
  }

  /** One thing Kubernetes does by itself about an unmounted, deleted or released object. */
  predicate Settles(v: Remains, v': Remains) {
    || (v.claim.Some? && v.claim.value.deleting && v' == v.(claim := None))
    || (v.claim.None? && v.pv.Some? && !v.pv.value.released &&
        v' == v.(pv := Some(v.pv.value.(released := true))))
    || (v.claim.None? && v.pv.Some? && v.pv.value.released && v.pv.value.policyDelete &&
        v' == v.(pv := None))
    || (v.claim.None? && v.pv.None? && v.backend.Some? && v' == v.(backend := None))
  }

  /** The objects are still the recorded ones: nobody replaced them. */
  predicate Kept(v: Remains, b: Binding, i: Identity) {
    && b.IsValid()
    && (i.driver.Longhorn? ==> i.longhorn.Some?)
    && (v.claim.Some? ==> v.claim.value.uid == b.uid && v.claim.value.ours && v.pv.Some?)
    && (v.pv.Some? ==> PvMatches(i.pv, v.pv.value, b, i))
    && (v.pv.Some? && v.pv.value.deleting ==> v.pv.value.policyDelete)
    && (v.backend.Some? ==> v.backend == i.longhorn)
  }

  function Work(v: Remains): nat {
    (if v.claim.None? then 0 else if v.claim.value.deleting then 1 else 2)
    + (if v.pv.None? then 0 else
         1 + (if v.pv.value.policyDelete then 0 else 1)
         + (if v.pv.value.released then 0 else 1)
         + (if v.pv.value.deleting then 0 else 1))
    + (if v.backend.None? then 0 else 1)
  }

  /** A round: one call, then Kubernetes acts, at least when the call could only wait. */
  ghost predicate Round(v: Remains, v': Remains, b: Binding, i: Identity) {
    var c := Called(v, b, i);
    if c == v then (if Gone(v, i) then v' == v else Settles(v, v'))
    else v' == c || Settles(c, v')
  }

  lemma SettlingProgresses(v: Remains, v': Remains, b: Binding, i: Identity)
    requires Kept(v, b, i) && Settles(v, v')
    ensures Kept(v', b, i) && Work(v') < Work(v)
  {
  }

  lemma CallProgresses(v: Remains, b: Binding, i: Identity)
    requires Kept(v, b, i)
    ensures Kept(Called(v, b, i), b, i)
    ensures Decide(v.claim, v.pv, v.backend, false, b, i) != Refuse
    ensures Called(v, b, i) != v ==> Work(Called(v, b, i)) < Work(v)
    ensures Called(v, b, i) == v && !Gone(v, i) ==> exists v' :: Settles(v, v')
  {
    if Called(v, b, i) == v && !Gone(v, i) {
      assert Settles(v, Settled(v));
    }
  }

  /** Whatever order Kubernetes works in, more rounds than `Work` leave nothing behind. */
  lemma {:induction false} ReclaimConverges(vs: seq<Remains>, b: Binding, i: Identity)
    requires |vs| > 0 && Kept(vs[0], b, i)
    requires forall k :: 0 <= k < |vs| - 1 ==> Round(vs[k], vs[k + 1], b, i)
    requires |vs| > Work(vs[0])
    ensures Gone(vs[|vs| - 1], i)
    ensures Decide(vs[|vs| - 1].claim, vs[|vs| - 1].pv, vs[|vs| - 1].backend, false, b, i) == Done
    decreases |vs|
  {
    var v := vs[0];
    if |vs| == 1 {
      assert Gone(v, i);
    } else {
      assert Round(vs[0], vs[1], b, i);
      CallProgresses(v, b, i);
      var c := Called(v, b, i);
      if Gone(v, i) {
        assert c == v;
        StaysGone(vs, b, i);
      } else {
        if c == v {
          SettlingProgresses(v, vs[1], b, i);
        } else if vs[1] != c {
          SettlingProgresses(c, vs[1], b, i);
        }
        var rest := vs[1..];
        forall k | 0 <= k < |rest| - 1 ensures Round(rest[k], rest[k + 1], b, i) {
          assert Round(vs[k + 1], vs[k + 2], b, i);
        }
        ReclaimConverges(rest, b, i);
      }
    }
  }

  lemma {:induction false} StaysGone(vs: seq<Remains>, b: Binding, i: Identity)
    requires |vs| > 0 && Kept(vs[0], b, i) && Gone(vs[0], i)
    requires forall k :: 0 <= k < |vs| - 1 ==> Round(vs[k], vs[k + 1], b, i)
    ensures vs[|vs| - 1] == vs[0]
  {
    if |vs| > 1 {
      assert Round(vs[0], vs[1], b, i);
      var rest := vs[1..];
      forall k | 0 <= k < |rest| - 1 ensures Round(rest[k], rest[k + 1], b, i) {
        assert Round(vs[k + 1], vs[k + 2], b, i);
      }
      StaysGone(rest, b, i);
    }
  }

  /**
   Calling until done, with Kubernetes doing one thing about the source after each
   call, always gets there, in no more calls than there is work.
   */
  method ReclaimUntilDone(start: Remains, b: Binding, i: Identity) returns (v: Remains, calls: nat)
    requires Kept(start, b, i)
    ensures Gone(v, i) && Decide(v.claim, v.pv, v.backend, false, b, i) == Done
    ensures calls <= Work(start)
  {
    hide Decide, Kept, Settles, Work, Called;
    v, calls := start, 0;
    while !Gone(v, i)
      invariant Kept(v, b, i) && calls + Work(v) <= Work(start)
      decreases Work(v)
    {
      CallProgresses(v, b, i);
      var called := Called(v, b, i);
      if called == v {
        var next: Remains := Settled(v);
        SettledSettles(v, b, i);
        SettlingProgresses(v, next, b, i);
        v := next;
      } else {
        v := called;
      }
      calls := calls + 1;
    }
    KeptGoneIsDone(v, b, i);
  }

  /** What Kubernetes does next about a source that was asked to go. */
  function Settled(v: Remains): Remains {
    if v.claim.Some? then v.(claim := None)
    else if v.pv.None? then v.(backend := None)
    else if !v.pv.value.released then v.(pv := Some(v.pv.value.(released := true)))
    else v.(pv := None)
  }

  lemma SettledSettles(v: Remains, b: Binding, i: Identity)
    requires Kept(v, b, i) && Called(v, b, i) == v && !Gone(v, i)
    ensures Settles(v, Settled(v))
  {
  }

  lemma KeptGoneIsDone(v: Remains, b: Binding, i: Identity)
    requires Kept(v, b, i) && Gone(v, i)
    ensures Decide(v.claim, v.pv, v.backend, false, b, i) == Done
  {
  }
}
