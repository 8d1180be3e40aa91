/**
 What the handler may rely on between two of its own API calls, however many
 steps everybody else takes meanwhile.
 */
module ShrinkRely {
  import opened Options
  import opened ShrinkTypes
  import opened ShrinkStore
  import opened ShrinkCluster
  import opened ShrinkProtocol
  import opened ShrinkInvariant
  import opened ShrinkSteps

  /** Claims only disappear; a claim that stays is the same claim on the same volume. */
  ghost predicate ClaimsRely(s: State, s': State) {
    && (forall n :: n in s'.claims ==>
          && n in s.claims
          && s'.claims[n].uid == s.claims[n].uid
          && s'.claims[n].ours == s.claims[n].ours && s'.claims[n].deleting == s.claims[n].deleting
          && (s.claims[n].volume.Some? ==> s'.claims[n].volume == s.claims[n].volume))
    && KeepsGuarded(s, s')
  }

  predicate RefAlive(s: State, pv: Pv) {
    pv.ref in s.claims && s.claims[pv.ref].uid == pv.refUid
  }

  /** A volume keeps its identity, and stays as long as its claim does. */
  ghost predicate PvsRely(s: State, s': State) {
    && (forall p :: p in s'.pvs ==>
          if p in s.pvs then
            s'.pvs[p] == s.pvs[p].(released := s'.pvs[p].released, data := s'.pvs[p].data)
            && (s.pvs[p].released ==> s'.pvs[p].released)
          else s.next <= p && s.next <= s'.pvs[p].handle)
    && (forall p :: p in s.pvs && RefAlive(s', s.pvs[p]) ==> p in s'.pvs)
    && (forall hd :: hd in s'.backends && hd < s.next ==> hd in s.backends)
  }

  ghost predicate HelpersRely(s: State, s': State) {
    forall h :: h in s'.helpers ==>
      && h in s.helpers
      && (s.helpers[h].phase != Running ==> s'.helpers[h] == s.helpers[h])
  }

  ghost predicate WorkloadRely(s: State, s': State) {
    && s'.workload.Some? == s.workload.Some?
    && (s.workload.Some? ==>
          var w, w' := s.workload.value, s'.workload.value;
          && w'.spec == w.spec && w'.generation == w.generation
          && (w' == w || w' == w.(observed := w.spec, observedGeneration := w.generation)))
    && (Offline(s) ==> Offline(s'))
  }

  ghost predicate Rely(s: State, s': State) {
    && s'.op == s.op && s'.ws == s.ws && s'.committed == s.committed && s'.reports == s.reports
    && s.next <= s'.next
    && ClaimsRely(s, s') && PvsRely(s, s') && HelpersRely(s, s') && WorkloadRely(s, s')
    && (Offline(s) && NoCopyRunning(s) ==> KeepsData(s, s'))
  }

  lemma RelyRefl(s: State)
    ensures Rely(s, s)
  {
  }

  lemma RelyTrans(s: State, t: State, u: State)
    requires Fresh(s) && Rely(s, t) && Rely(t, u)
    ensures Rely(s, u)
  {
    assert ClaimsRely(s, u) by {
      forall n | Guarded(s, n)
        ensures Guarded(u, n) && u.claims[n].uid == s.claims[n].uid
        ensures s.claims[n].volume.Some? ==> u.claims[n].volume == s.claims[n].volume
      {
        assert Guarded(t, n);
      }
    }
    assert PvsRely(s, u) by {
      forall p | p in s.pvs && RefAlive(u, s.pvs[p]) ensures p in u.pvs {
        assert RefAlive(t, s.pvs[p]);
      }
    }
    assert HelpersRely(s, u);
    assert WorkloadRely(s, u);
    if Offline(s) && NoCopyRunning(s) {
      assert NoCopyRunning(t);
      forall n | Guarded(s, n) && Guarded(u, n) && s.claims[n].volume.Some?
        ensures DataOf(u, n) == DataOf(s, n)
      {
        assert Guarded(t, n);
      }
    }
  }

  predicate ClaimAction(a: Action) { a.OwnClaim? || a.CollectClaim? || a.BindClaim? || a.FinalizeClaim? }

  lemma ClaimActionRely(a: Action, s: State)
    requires Base(s) && EnvEnabled(a, s) && ClaimAction(a)
    ensures ClaimsRely(s, EnvEffect(a, s))
  {
    if a.BindClaim? {
      BindClaimRely(a, s);
    } else {
      hide Base, ClaimsRely, EnvEnabled, EnvEffect;
      ClaimEndRely(a, s);
    }
  }

  lemma BindClaimRely(a: Action, s: State)
    requires EnvEnabled(a, s) && a.BindClaim?
    ensures ClaimsRely(s, EnvEffect(a, s))
  {
    SameUnownable(s, EnvEffect(a, s));
    hide Unownable, Mounted;
  }

  lemma SameUnownable(s: State, s': State)
    requires s'.workload == s.workload
    ensures forall n :: Unownable(s', n) == Unownable(s, n)
  {
  }

  lemma ClaimEndRely(a: Action, s: State)
    requires EnvEnabled(a, s) && (a.OwnClaim? || a.CollectClaim? || a.FinalizeClaim?)
    ensures ClaimsRely(s, EnvEffect(a, s))
  {
    hide Mounted, Forget;
    var s' := EnvEffect(a, s);
    assert s'.workload == s.workload;
    forall n | Guarded(s, n) ensures Guarded(s', n) {
    }
  }

  lemma LeavesClaims(a: Action, s: State)
    requires EnvEnabled(a, s) && !ClaimAction(a)
    requires !(a.Enqueue? || a.Confirm? || a.RetryResume? || a.Lifecycle? || a.Reconcile?)
    ensures EnvEffect(a, s).claims == s.claims
    ensures !a.Observe? ==> EnvEffect(a, s).workload == s.workload
    ensures a.Observe? ==>
              && s.workload.Some? && EnvEffect(a, s).workload.Some?
              && EnvEffect(a, s).workload.value.spec == s.workload.value.spec
              && EnvEffect(a, s).workload.value.observed == s.workload.value.spec
  {
    hide WriteClaim, Forget, DataOf, Mounted, ClaimAlive;
  }

  lemma SameClaimsRely(s: State, s': State)
    requires s'.claims == s.claims && forall n :: Unownable(s, n) ==> Unownable(s', n)
    ensures ClaimsRely(s, s')
  {
    forall n | Guarded(s, n) ensures Guarded(s', n) {
    }
  }

  lemma OtherActionRely(a: Action, s: State)
    requires EnvEnabled(a, s) && !ClaimAction(a)
    requires !(a.Enqueue? || a.Confirm? || a.RetryResume? || a.Lifecycle? || a.Reconcile?)
    ensures ClaimsRely(s, EnvEffect(a, s))
  {
    hide EnvEnabled, EnvEffect;
    LeavesClaims(a, s);
    SameClaimsRely(s, EnvEffect(a, s));
  }

  lemma EnvClaimsRely(a: Action, s: State)
    requires Base(s) && EnvEnabled(a, s)
    requires !(a.Enqueue? || a.Confirm? || a.RetryResume? || a.Lifecycle? || a.Reconcile?)
    ensures ClaimsRely(s, EnvEffect(a, s))
  {
    hide EnvEnabled, EnvEffect, ClaimsRely, Base;
    if ClaimAction(a) {
      ClaimActionRely(a, s);
    } else {
      OtherActionRely(a, s);
    }
  }

  predicate VolumeAction(a: Action) {
    a.UserWrite? || a.HelperWrites? || a.BindClaim? || a.ReleasePv? || a.RemovePv? || a.RemoveBackend?
  }

  lemma VolumeActionRely(a: Action, s: State)
    requires Fresh(s) && EnvEnabled(a, s) && VolumeAction(a)
    ensures PvsRely(s, EnvEffect(a, s))
  {
    if a.BindClaim? {
      BindPvs(s, a);
    } else if a.UserWrite? || a.HelperWrites? {
      WritePvs(s, a);
    } else {
      hide Mounted, WriteClaim;
    }
  }

  lemma WritePvs(s: State, a: Action)
    requires Fresh(s) && EnvEnabled(a, s) && (a.UserWrite? || a.HelperWrites?)
    ensures PvsRely(s, EnvEffect(a, s))
  {
  }

  lemma BindPvs(s: State, a: Action)
    requires Fresh(s) && EnvEnabled(a, s) && a.BindClaim?
    ensures PvsRely(s, EnvEffect(a, s))
  {
  }

  lemma NoVolumeAction(a: Action, s: State)
    requires EnvEnabled(a, s) && !VolumeAction(a)
    requires !(a.Enqueue? || a.Confirm? || a.RetryResume? || a.Lifecycle? || a.Reconcile?)
    ensures var s' := EnvEffect(a, s); s'.pvs == s.pvs && s'.backends == s.backends && s'.next == s.next
  {
    hide EnvEnabled, Forget;
  }

  lemma SamePvsRely(s: State, s': State)
    requires s'.pvs == s.pvs && s'.backends == s.backends && s'.next == s.next
    ensures PvsRely(s, s')
  {
  }

  lemma EnvPvsRely(a: Action, s: State)
    requires Fresh(s) && EnvEnabled(a, s)
    requires !(a.Enqueue? || a.Confirm? || a.RetryResume? || a.Lifecycle? || a.Reconcile?)
    ensures PvsRely(s, EnvEffect(a, s))
  {
    hide EnvEnabled, EnvEffect, PvsRely, Fresh;
    if VolumeAction(a) {
      VolumeActionRely(a, s);
    } else {
      NoVolumeAction(a, s);
      SamePvsRely(s, EnvEffect(a, s));
    }
  }

  predicate HelperAction(a: Action) { a.HelperSucceeds? || a.HelperFails? || a.HelperExit? }

  predicate WorkloadAction(a: Action) { a.Observe? || a.StartPod? || a.WorkExit? }

  lemma LeavesRow(a: Action, s: State)
    requires EnvEnabled(a, s)
    requires !(a.Enqueue? || a.Confirm? || a.RetryResume? || a.Lifecycle? || a.Reconcile?)
    ensures var s' := EnvEffect(a, s);
            && s'.op == s.op && s'.ws == s.ws && s'.committed == s.committed && s'.reports == s.reports
            && s.next <= s'.next
            && (!HelperAction(a) ==> s'.helpers == s.helpers)
            && (!WorkloadAction(a) ==> s'.workload == s.workload && s'.work == s.work)
  {
    hide WriteClaim, Forget, DataOf, Mounted, ClaimAlive;
  }

  lemma HelperActionRely(a: Action, s: State)
    requires EnvEnabled(a, s) && HelperAction(a)
    ensures HelpersRely(s, EnvEffect(a, s))
  {
    hide DataOf;
  }

  lemma WorkloadActionRely(a: Action, s: State)
    requires EnvEnabled(a, s) && WorkloadAction(a)
    ensures WorkloadRely(s, EnvEffect(a, s))
  {
  }

  lemma EnvRowRely(a: Action, s: State)
    requires EnvEnabled(a, s)
    requires !(a.Enqueue? || a.Confirm? || a.RetryResume? || a.Lifecycle? || a.Reconcile?)
    ensures var s' := EnvEffect(a, s);
            && s'.op == s.op && s'.ws == s.ws && s'.committed == s.committed && s'.reports == s.reports
            && s.next <= s'.next
            && HelpersRely(s, s') && WorkloadRely(s, s')
  {
    hide EnvEnabled, EnvEffect;
    LeavesRow(a, s);
    if HelperAction(a) {
      HelperActionRely(a, s);
    }
    if WorkloadAction(a) {
      WorkloadActionRely(a, s);
    }
  }

  lemma NothingWrites(a: Action, s: State)
    requires EnvEnabled(a, s) && Offline(s) && NoCopyRunning(s)
    ensures !a.UserWrite? && !a.HelperWrites?
  {
    hide DataOf, Mounted, ClaimAlive, RequestAllowed, RetryVolume, ConfirmAllowed, VerifiedDestination;
  }

  /** A volume whose claim is alive keeps its data when nothing writes. */
  lemma QuietVolumes(a: Action, s: State)
    requires Fresh(s) && EnvEnabled(a, s)
    requires a.BindClaim? || a.ReleasePv? || a.RemovePv? || a.RemoveBackend?
    ensures forall p :: p in s.pvs && ClaimAlive(s, p) ==>
              p in EnvEffect(a, s).pvs && EnvEffect(a, s).pvs[p].data == s.pvs[p].data
  {
  }

  lemma VolumeDataRely(a: Action, s: State)
    requires Fresh(s) && EnvEnabled(a, s) && Offline(s) && NoCopyRunning(s) && VolumeAction(a)
    requires ClaimsRely(s, EnvEffect(a, s))
    ensures KeepsData(s, EnvEffect(a, s))
  {
    hide EnvEnabled, EnvEffect, NoCopyRunning, Offline;
    NothingWrites(a, s);
    QuietVolumes(a, s);
    var s' := EnvEffect(a, s);
    forall n | Guarded(s, n) && Guarded(s', n) && s.claims[n].volume.Some?
      ensures DataOf(s', n) == DataOf(s, n)
    {
      assert ClaimAlive(s, s.claims[n].volume.value);
    }
  }

  lemma SamePvsData(s: State, s': State)
    requires Fresh(s) && ClaimsRely(s, s') && s'.pvs == s.pvs
    ensures KeepsData(s, s')
  {
  }

  lemma EnvDataRely(a: Action, s: State)
    requires Base(s) && EnvEnabled(a, s) && Offline(s) && NoCopyRunning(s)
    requires !(a.Enqueue? || a.Confirm? || a.RetryResume? || a.Lifecycle? || a.Reconcile?)
    ensures KeepsData(s, EnvEffect(a, s))
  {
    hide EnvEnabled, EnvEffect, KeepsData, Fresh, WorkloadOk, UserDataSafe, HelpersOk, NoCopyRunning, Offline,
         ClaimsRely;
    EnvClaimsRely(a, s);
    if VolumeAction(a) {
      VolumeDataRely(a, s);
    } else {
      NoVolumeAction(a, s);
      SamePvsData(s, EnvEffect(a, s));
    }
  }

  /** Requests that would change the row are refused while an operation is active. */
  lemma OnlyOthersAct(a: Action, s: State)
    requires IsActive(s) && EnvEnabled(a, s)
    ensures Calm(a) && !a.Lifecycle? && !a.Reconcile?
  {
    hide DataOf, Mounted, ClaimAlive, RequestAllowed, RetryVolume;
  }

  lemma EnvRely(a: Action, s: State)
    requires Inv(s) && IsActive(s) && EnvEnabled(a, s)
    ensures Rely(s, EnvEffect(a, s))
    ensures Calm(a)
  {
    hide EnvEnabled, EnvEffect, ClaimsRely, PvsRely, HelpersRely, WorkloadRely, KeepsData, NoCopyRunning;
    hide Fresh, UserDataSafe, HelpersOk, OpOk, WorkloadOk;
    OnlyOthersAct(a, s);
    EnvClaimsRely(a, s);
    EnvPvsRely(a, s);
    EnvRowRely(a, s);
    if Offline(s) && NoCopyRunning(s) {
      EnvDataRely(a, s);
    }
  }
}
