/** Every action but a save keeps the invariant, and every record the handler has in memory. */
module ShrinkSafety {
  import opened Options
  import opened ShrinkTypes
  import opened ShrinkStore
  import opened ShrinkCluster
  import opened ShrinkProtocol
  import opened ShrinkInvariant
  import opened ShrinkSteps
  import opened ShrinkSaves

  lemma LinkedHolds(s: State, o: Operation)
    requires Inv(s) && Linked(s, o)
    ensures Holds(s, o)
  {
  }

  lemma SteadyIf(s: State, s': State, o: Operation)
    requires Inv(s) && (Holds(s, o) ==> Steady(s, s', o))
    ensures Linked(s, o) ==> OpOk(s', o)
  {
    if Linked(s, o) {
      LinkedHolds(s, o);
      SteadyOp(s, s', o);
    }
  }

  ghost predicate Kept(s: State, s': State, o: Operation) {
    Base(s') && (Holds(s, o) ==> Steady(s, s', o))
  }

  lemma PodActionKeeps(a: Action, s: State, o: Operation)
    requires Base(s) && EnvEnabled(a, s)
    requires a.Observe? || a.StartPod? || a.WorkExit? || a.OtherPod? || a.OtherExit?
    ensures Kept(s, EnvEffect(a, s), o)
  {
    var s' := EnvEffect(a, s);
    if a.Observe? {
      ObserveKeeps(s, o);
    } else {
      PodKeeps(s, s', o);
    }
  }

  lemma RowActionKeeps(a: Action, s: State, o: Operation)
    requires Base(s) && EnvEnabled(a, s)
    requires a.Lifecycle? || a.Reconcile?
    ensures Kept(s, EnvEffect(a, s), o)
  {
    if a.Lifecycle? {
      StateKeeps(s, a.state, o);
    } else {
      ApplyKeeps(s, a.retain, o);
    }
  }

  lemma ClaimActionKeeps(a: Action, s: State, o: Operation)
    requires Base(s) && EnvEnabled(a, s)
    requires a.OwnClaim? || a.CollectClaim? || a.FinalizeClaim? || a.BindClaim?
    ensures Kept(s, EnvEffect(a, s), o)
  {
    if a.OwnClaim? {
      OwnClaimKeeps(s, a.name, o);
    } else if a.BindClaim? {
      BindBase(s, a.name, a.driver, a.capacity, a.policyDelete);
      if Holds(s, o) {
        BindSteady(s, a.name, a.driver, a.capacity, a.policyDelete, o);
      }
    } else {
      ClaimGoneKeeps(a, s, a.name, o);
    }
  }

  lemma VolumeActionKeeps(a: Action, s: State, o: Operation)
    requires Base(s) && EnvEnabled(a, s)
    requires a.ReleasePv? || a.RemovePv? || a.RemoveBackend?
    ensures Kept(s, EnvEffect(a, s), o)
  {
    VolumeActionContents(a, s);
    hide Base, Holds, Steady, SameContents, EnvEnabled, EnvEffect;
    SameContentsKeeps(s, EnvEffect(a, s), o);
  }

  lemma VolumeActionContents(a: Action, s: State)
    requires Base(s) && EnvEnabled(a, s)
    requires a.ReleasePv? || a.RemovePv? || a.RemoveBackend?
    ensures SameContents(s, EnvEffect(a, s))
  {
    hide HelpersOk, WorkloadOk, UserDataSafe;
  }

  lemma WriteActionKeeps(a: Action, s: State, o: Operation)
    requires Inv(s) && EnvEnabled(a, s) && (a.UserWrite? || a.HelperWrites?)
    ensures Kept(s, EnvEffect(a, s), o)
  {
    if a.UserWrite? {
      UserWriteKeeps(s, a.role, a.data, o);
    } else {
      HelperWriteKeeps(s, a.helper, a.data, o);
    }
  }

  lemma HelperActionKeeps(a: Action, s: State, o: Operation)
    requires Base(s) && EnvEnabled(a, s) && (a.HelperFails? || a.HelperExit?)
    ensures Kept(s, EnvEffect(a, s), o)
  {
    if a.HelperFails? {
      var p := s.helpers[a.helper].(phase := PodFailed);
      HelperEndsBase(s, a.helper, p);
      if Holds(s, o) {
        HelperEndsSteady(s, a.helper, p, o);
      }
    } else {
      HelperExitKeeps(s, a.helper, o);
    }
  }

  lemma SuccessKeeps(s: State, h: HelperName, u: Usage, o: Operation)
    requires Inv(s) && EnvEnabled(HelperSucceeds(h, u), s)
    ensures Base(EnvEffect(HelperSucceeds(h, u), s))
    ensures Linked(s, o) ==> OpOk(EnvEffect(HelperSucceeds(h, u), s), o)
  {
    hide Fresh, WorkloadOk, UserDataSafe;
    HelperEndsBase(s, h, s.helpers[h].(phase := Succeeded, usage := u));
    if Linked(s, o) {
      LinkedHolds(s, o);
      assert HelperOk(s, h);
      HelperSucceedsOp(s, h, u, o);
    }
  }

  /** Nothing the environment does falsifies the invariant or an in-memory record. */
  lemma EnvKeeps(a: Action, s: State, o: Operation)
    requires Inv(s) && EnvEnabled(a, s) && Calm(a)
    ensures Base(EnvEffect(a, s))
    ensures Linked(s, o) ==> OpOk(EnvEffect(a, s), o)
  {
    if a.HelperSucceeds? {
      SuccessKeeps(s, a.helper, a.usage, o);
    } else {
      EnvKept(a, s, o);
      SteadyIf(s, EnvEffect(a, s), o);
    }
  }

  lemma EnvKept(a: Action, s: State, o: Operation)
    requires Inv(s) && EnvEnabled(a, s) && Calm(a) && !a.HelperSucceeds?
    ensures Kept(s, EnvEffect(a, s), o)
  {
    if a.Observe? || a.StartPod? || a.WorkExit? || a.OtherPod? || a.OtherExit? {
      PodActionKeeps(a, s, o);
    } else if a.Lifecycle? || a.Reconcile? {
      RowActionKeeps(a, s, o);
    } else if a.OwnClaim? || a.CollectClaim? || a.FinalizeClaim? || a.BindClaim? {
      ClaimActionKeeps(a, s, o);
    } else if a.ReleasePv? || a.RemovePv? || a.RemoveBackend? {
      VolumeActionKeeps(a, s, o);
    } else if a.UserWrite? || a.HelperWrites? {
      WriteActionKeeps(a, s, o);
    } else {
      HelperActionKeeps(a, s, o);
    }
  }

  // ----------------------------------------------------------------- handler actions

  lemma WorkloadRequestKeeps(a: Action, s: State, o: Operation)
    requires Base(s) && HandlerEnabled(a, s)
    requires a.RequestRetain? || a.RequestStop? || a.ResumeWorkload? || a.RecordState?
    ensures Kept(s, HandlerEffect(a, s), o)
  {
    if a.ResumeWorkload? {
      ApplyKeeps(s, a.retain, o);
    } else if a.RecordState? {
      StateKeeps(s, a.state, o);
    } else {
      RequestKeeps(a, s, o);
    }
  }

  lemma CreateKeeps(a: Action, s: State, o: Operation)
    requires Inv(s) && HandlerEnabled(a, s) && (a.CreateDestination? || a.CreateHelper? || a.DeleteHelper?)
    ensures Kept(s, HandlerEffect(a, s), o)
  {
    if a.CreateDestination? {
      CreateDestinationKeeps(s, a.role, o);
    } else if a.CreateHelper? {
      CreateHelperKeeps(s, a.role, a.stage, o);
    } else {
      HelperEndsBase(s, a.helper, s.helpers[a.helper].(deleting := true));
      if Holds(s, o) {
        HelperEndsSteady(s, a.helper, s.helpers[a.helper].(deleting := true), o);
      }
    }
  }

  lemma ReclaimKeeps(a: Action, s: State, o: Operation)
    requires Inv(s) && HandlerEnabled(a, s)
    requires a.MarkPvDelete? || a.DeleteSourcePv? || a.DeleteSourceClaim? || a.ReleaseOwner?
    ensures Kept(s, HandlerEffect(a, s), o)
  {
    hide HandlerEnabled, HandlerEffect, OpOk;
    if a.DeleteSourceClaim? {
      assert a == DeleteSourceClaim(a.role);
      DeleteSourceKeeps(s, a.role, o);
    } else if a.ReleaseOwner? {
      assert a == ReleaseOwner(a.role);
      ReleaseOwnerKeeps(s, a.role, o);
    } else {
      PvChangeKeeps(a, s, o);
    }
  }

  lemma PvChangeKeeps(a: Action, s: State, o: Operation)
    requires Inv(s) && HandlerEnabled(a, s) && (a.MarkPvDelete? || a.DeleteSourcePv?)
    ensures Kept(s, HandlerEffect(a, s), o)
  {
    PvChangeFrame(a, s);
    hide HandlerEnabled, HandlerEffect, OpOk, SameContents;
    SameContentsKeeps(s, HandlerEffect(a, s), o);
  }

  lemma PvChangeFrame(a: Action, s: State)
    requires HandlerEnabled(a, s) && (a.MarkPvDelete? || a.DeleteSourcePv?)
    ensures SameContents(s, HandlerEffect(a, s))
  {
    hide PvMatches;
  }

  lemma ReportActionKeeps(s: State, r: Role, stage: Stage, o: Operation)
    requires Inv(s) && HandlerEnabled(Report(r, stage), s) && Linked(s, o)
    ensures Base(HandlerEffect(Report(r, stage), s)) && OpOk(HandlerEffect(Report(r, stage), s), o)
  {
    ReportKeeps(s, r, stage, s.helpers[HelperName(s.op.value.id, r, stage)].usage, o);
  }

  lemma HandlerKeeps(a: Action, s: State, o: Operation)
    requires Inv(s) && HandlerEnabled(a, s) && Calm(a) && Linked(s, o)
    ensures Base(HandlerEffect(a, s)) && OpOk(HandlerEffect(a, s), o)
  {
    if a.Report? {
      ReportActionKeeps(s, a.role, a.stage, o);
    } else {
      HandlerKept(a, s, o);
      SteadyIf(s, HandlerEffect(a, s), o);
    }
  }

  lemma HandlerKept(a: Action, s: State, o: Operation)
    requires Inv(s) && HandlerEnabled(a, s) && Calm(a) && !a.Report?
    ensures Kept(s, HandlerEffect(a, s), o)
  {
    if a.RequestRetain? || a.RequestStop? || a.ResumeWorkload? || a.RecordState? {
      WorkloadRequestKeeps(a, s, o);
    } else if a.CreateDestination? || a.CreateHelper? || a.DeleteHelper? {
      CreateKeeps(a, s, o);
    } else {
      ReclaimKeeps(a, s, o);
    }
  }
}
