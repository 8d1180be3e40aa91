/**
 The worker pool: slots that read the concurrency setting, register for wake-ups,
 claim a job or wait. Steps of different slots, setting changes, jobs becoming
 claimable and their notifications interleave in every way.
 */
module WorkerSlots {
  /** Where a slot's loop is: the setting it last read, and which setting that was. */
  datatype Point =
    | Top
    | HasRead(read: nat, version: nat)
    | Registered(read: nat, version: nat)
    | Running(job: nat, version: nat)
    | Idle(admitted: bool, version: nat)
    | Waiting(active: bool, version: nat)

  /** `woken`: signalled since it registered; `seen`: the setting it has waited past. */
  datatype Slot = Slot(point: Point, woken: bool, seen: nat)

  /**
   `announced` are the jobs whose notification was sent after they became
   claimable. Jobs that nobody announces are left to the poll timer.
   */
  datatype Pool = Pool(slots: seq<Slot>, setting: nat, version: nat, claimable: set<nat>, announced: set<nat>)

  datatype Event =
    | ReadSetting(i: nat) | Register(i: nat) | Claim(i: nat, job: nat) | ClaimNone(i: nat) | Finish(i: nat)
    | Decide(i: nat) | WakeNotified(i: nat) | WakeChanged(i: nat) | WakeTimer(i: nat)
    | SetConcurrency(n: nat) | Release(jobs: set<nat>) | Notify(jobs: set<nat>)

  predicate At(p: Pool, i: nat) { i < |p.slots| }

  predicate Enabled(e: Event, p: Pool) {
    match e
    case ReadSetting(i) => At(p, i) && p.slots[i].point.Top?
    case Register(i) => At(p, i) && p.slots[i].point.HasRead?
    case Claim(i, job) => At(p, i) && p.slots[i].point.Registered? && job in p.claimable
    case ClaimNone(i) => At(p, i) && p.slots[i].point.Registered? && p.claimable == {}
    case Finish(i) => At(p, i) && p.slots[i].point.Running?
    case Decide(i) => At(p, i) && p.slots[i].point.Idle?
    case WakeNotified(i) => At(p, i) && p.slots[i].point.Waiting? && p.slots[i].point.active && p.slots[i].woken
    case WakeChanged(i) => At(p, i) && p.slots[i].point.Waiting? && p.slots[i].seen != p.version
    case WakeTimer(i) => At(p, i) && p.slots[i].point.Waiting? && p.slots[i].point.active
    case SetConcurrency(n) => n != p.setting
    case Release(_) => true
    case Notify(_) => true
  }

  function Moved(p: Pool, i: nat, point: Point): Pool
    requires At(p, i)
  {
    p.(slots := p.slots[i := p.slots[i].(point := point)])
  }

  predicate Listening(s: Slot) { s.point.Registered? || s.point.Running? || s.point.Idle? || s.point.Waiting? }

  /** A signal reaches every slot that has registered and not yet gone round again. */
  function Signal(s: Slot): Slot { if Listening(s) then s.(woken := true) else s }

  function Effect(e: Event, p: Pool): Pool
    requires Enabled(e, p)
  {
    match e
    case ReadSetting(i) => Moved(p, i, HasRead(p.setting, p.version))
    case Register(i) =>
      var at := p.slots[i].point;
      var next := if i < at.read then Registered(at.read, at.version) else Idle(false, at.version);
      p.(slots := p.slots[i := p.slots[i].(point := next, woken := false)])
    case Claim(i, job) =>
      Moved(p, i, Running(job, p.slots[i].point.version)).(claimable := p.claimable - {job})
    case ClaimNone(i) => Moved(p, i, Idle(true, p.slots[i].point.version))
    case Finish(i) => Moved(p, i, Top)
    case Decide(i) => Moved(p, i, Waiting(i < p.setting, p.version))
    case WakeNotified(i) => Moved(p, i, Top)
    case WakeChanged(i) => p.(slots := p.slots[i := p.slots[i].(point := Top, seen := p.version)])
    case WakeTimer(i) => Moved(p, i, Top)
    case SetConcurrency(n) => p.(setting := n, version := p.version + 1)
    case Release(jobs) => p.(claimable := p.claimable + jobs, announced := p.announced - jobs)
    case Notify(jobs) =>
      p.(announced := p.announced + jobs,
         slots := seq(|p.slots|, i requires 0 <= i < |p.slots| => Signal(p.slots[i])))
  }

  predicate Init(p: Pool) {
    && p.version == 0 && p.claimable == {} && p.announced == {}
    && forall i :: 0 <= i < |p.slots| ==> p.slots[i] == Slot(Top, false, 0)
  }

  /** Every announced job has been claimed. */
  predicate Served(p: Pool) { p.claimable !! p.announced }

  predicate SlotOk(p: Pool, i: nat)
    requires At(p, i)
  {
    var s := p.slots[i];
    && s.seen <= p.version
    && match s.point
       case Top => true
       case HasRead(n, v) => s.seen <= v <= p.version && (v == p.version ==> n == p.setting)
       case Registered(n, v) => s.seen <= v <= p.version && i < n && (v == p.version ==> n == p.setting)
       case Running(_, v) => s.seen <= v <= p.version && (v == p.version ==> i < p.setting)
       case Idle(a, v) =>
         && s.seen <= v <= p.version && (v == p.version ==> a == (i < p.setting))
         && (a ==> s.woken || Served(p))
       case Waiting(a, v) =>
         && s.seen <= v <= p.version && (v == p.version ==> a == (i < p.setting))
         && (a && s.seen == p.version ==> s.woken || Served(p))
  }

  ghost predicate Inv(p: Pool) { forall i :: 0 <= i < |p.slots| ==> SlotOk(p, i) }

  lemma StepKeepsInv(p: Pool, e: Event)
    requires Inv(p) && Enabled(e, p)
    ensures Inv(Effect(e, p))
  {
    var p' := Effect(e, p);
    forall i | 0 <= i < |p'.slots| ensures SlotOk(p', i) {
      assert SlotOk(p, i);
      assert !e.Notify? && Served(p) ==> Served(p');
    }
  }

  ghost predicate Run(ps: seq<Pool>, es: seq<Event>) {
    && |ps| == |es| + 1 && Init(ps[0])
    && forall k :: 0 <= k < |es| ==> Step(ps[k], es[k], ps[k + 1])
  }

  ghost predicate Step(p: Pool, e: Event, p': Pool) { Enabled(e, p) && p' == Effect(e, p) }

  lemma {:induction false} RunsKeepInv(ps: seq<Pool>, es: seq<Event>, k: nat)
    requires Run(ps, es) && k < |ps|
    ensures Inv(ps[k]) && |ps[k].slots| == |ps[0].slots|
  {
    if k > 0 {
      RunsKeepInv(ps, es, k - 1);
      assert Step(ps[k - 1], es[k - 1], ps[k]);
      StepKeepsInv(ps[k - 1], es[k - 1]);
    }
  }

  // --------------------------------------------------------------------------- wake-ups

  /** Nothing but the poll timer will move the slot on. */
  predicate Asleep(p: Pool, i: nat) {
    At(p, i) && p.slots[i].point.Waiting? && !Enabled(WakeNotified(i), p) && !Enabled(WakeChanged(i), p)
  }

  /**
   No wake-up is lost: while an admitted slot is asleep, every job that has been
   announced has also been claimed.
   */
  lemma NoWakeupIsLost(ps: seq<Pool>, es: seq<Event>, k: nat, i: nat, job: nat)
    requires Run(ps, es) && k < |ps| && Asleep(ps[k], i) && i < ps[k].setting
    ensures job in ps[k].announced ==> job !in ps[k].claimable
  {
    RunsKeepInv(ps, es, k);
    assert SlotOk(ps[k], i);
  }

  /** The event takes the slot back to the top of its loop. */
  predicate GoesRound(e: Event, i: nat) {
    e == Finish(i) || e == WakeNotified(i) || e == WakeChanged(i) || e == WakeTimer(i)
  }

  lemma {:induction false} StaysListening(ps: seq<Pool>, es: seq<Event>, i: nat, from: nat, k: nat)
    requires Run(ps, es) && from < k < |ps| && es[from] == Register(i)
    requires forall j :: from < j < k ==> !GoesRound(es[j], i)
    ensures At(ps[k], i) && Listening(ps[k].slots[i])
  {
    assert Step(ps[k - 1], es[k - 1], ps[k]);
    if k - 1 > from {
      StaysListening(ps, es, i, from, k - 1);
    }
  }

  lemma {:induction false} StaysWoken(ps: seq<Pool>, es: seq<Event>, i: nat, from: nat, signal: nat, k: nat)
    requires Run(ps, es) && from < signal < k < |ps| && es[from] == Register(i) && es[signal].Notify?
    requires forall j :: from < j < k ==> !GoesRound(es[j], i)
    ensures At(ps[k], i) && ps[k].slots[i].woken
  {
    assert Step(ps[k - 1], es[k - 1], ps[k]);
    StaysListening(ps, es, i, from, k - 1);
    if k - 1 > signal {
      StaysWoken(ps, es, i, from, signal, k - 1);
    }
  }

  /** A slot signalled since it registered never sleeps, as long as it is admitted, until it goes round. */
  lemma SignalledSlotsNeverSleep(ps: seq<Pool>, es: seq<Event>, i: nat, from: nat, signal: nat, k: nat)
    requires Run(ps, es) && from < signal < k < |ps| && es[from] == Register(i) && es[signal].Notify?
    requires forall j :: from < j < k ==> !GoesRound(es[j], i)
    ensures i < ps[k].setting ==> !Asleep(ps[k], i)
  {
    StaysWoken(ps, es, i, from, signal, k);
    RunsKeepInv(ps, es, k);
    assert SlotOk(ps[k], i);
  }

  lemma {:induction false} SettlesDown(ps: seq<Pool>, es: seq<Event>, i: nat, from: nat, k: nat)
    requires Run(ps, es) && from < k < |ps| && es[from] == WakeChanged(i)
    requires forall j :: from < j < k ==> !es[j].SetConcurrency? && !es[j].Notify?
    ensures At(ps[k], i) && ps[k].slots[i].seen == ps[k].version
    ensures Listening(ps[k].slots[i]) ==> !ps[k].slots[i].woken
  {
    assert Step(ps[k - 1], es[k - 1], ps[k]);
    if k - 1 > from {
      SettlesDown(ps, es, i, from, k - 1);
    }
  }

  /**
   No slot spins: once woken by a change of the setting, a slot that comes to wait
   again sleeps, unless the setting has changed or a signal was sent since.
   */
  lemma WaitingSlotsSleep(ps: seq<Pool>, es: seq<Event>, i: nat, from: nat, k: nat)
    requires Run(ps, es) && from < k < |ps| && es[from] == WakeChanged(i)
    requires forall j :: from < j < k ==> !es[j].SetConcurrency? && !es[j].Notify?
    ensures At(ps[k], i) && (ps[k].slots[i].point.Waiting? ==> Asleep(ps[k], i))
  {
    SettlesDown(ps, es, i, from, k);
  }

  // -------------------------------------------------------------------------- admission

  /** The slot's own events between reading the setting and claiming. */
  predicate Touches(e: Event, i: nat) { e == ReadSetting(i) || e == Register(i) || GoesRound(e, i) || e == Decide(i) }

  lemma {:induction false} ReadBefore(ps: seq<Pool>, es: seq<Event>, k: nat, i: nat) returns (at: nat)
    requires Run(ps, es) && k < |ps| && At(ps[k], i)
    requires ps[k].slots[i].point.HasRead? || ps[k].slots[i].point.Registered?
    ensures at < k && es[at] == ReadSetting(i) && ps[at].setting == ps[k].slots[i].point.read
    ensures forall j :: at < j < k && Touches(es[j], i) ==> es[j] == Register(i)
  {
    if k == 0 {
      assert false;
    } else {
      assert Step(ps[k - 1], es[k - 1], ps[k]);
      if es[k - 1] == ReadSetting(i) {
        at := k - 1;
      } else {
        at := ReadBefore(ps, es, k - 1, i);
      }
    }
  }

  /** A job is started only by a slot below the setting it has just read. */
  lemma ClaimsAreAdmitted(ps: seq<Pool>, es: seq<Event>, k: nat, i: nat) returns (at: nat)
    requires Run(ps, es) && k < |es| && es[k].Claim? && es[k].i == i
    ensures at < k && es[at] == ReadSetting(i) && i < ps[at].setting
    ensures forall j :: at < j < k && Touches(es[j], i) ==> es[j] == Register(i)
  {
    assert Step(ps[k], es[k], ps[k + 1]);
    RunsKeepInv(ps, es, k);
    assert SlotOk(ps[k], i);
    at := ReadBefore(ps, es, k, i);
  }

  /** Slots running a job they were admitted to under the present setting. */
  function InFlight(p: Pool): set<nat> {
    set i | 0 <= i < |p.slots| && p.slots[i].point.Running? && p.slots[i].point.version == p.version
  }

  lemma {:induction false} BelowSize(s: set<nat>, n: nat)
    requires forall i :: i in s ==> i < n
    ensures |s| <= n
  {
    if n == 0 {
      assert s == {};
    } else {
      var rest := s - {n - 1};
      BelowSize(rest, n - 1);
      assert s <= rest + {n - 1};
      assert |s| <= |rest| + 1;
    }
  }

  /** While the setting stays as it is, the jobs admitted under it never exceed it. */
  lemma InFlightIsBounded(ps: seq<Pool>, es: seq<Event>, k: nat)
    requires Run(ps, es) && k < |ps|
    ensures |InFlight(ps[k])| <= ps[k].setting
  {
    RunsKeepInv(ps, es, k);
    forall i | i in InFlight(ps[k]) ensures i < ps[k].setting {
      assert SlotOk(ps[k], i);
    }
    BelowSize(InFlight(ps[k]), ps[k].setting);
  }
}
