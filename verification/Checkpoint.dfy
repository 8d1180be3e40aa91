/**
 A reconcile job that keeps waiting for readiness: a full apply leaves a checkpoint
 in the job's payload, runs that find it fresh only observe, and every wait is
 parked until the checkpoint goes stale.
 */
module Checkpoint {
  import opened Options

  const I64_MIN: int := -0x8000_0000_0000_0000
  const I64_MAX: int := 0x7fff_ffff_ffff_ffff
  const U64_LIMIT: int := 0x1_0000_0000_0000_0000
  const REPAIR_SECONDS: int := 60

  type i64 = n: int | I64_MIN <= n <= I64_MAX witness 0
  type u64 = n: int | 0 <= n < U64_LIMIT witness 0

  function Saturate(n: int): i64 { if n < I64_MIN then I64_MIN else if n > I64_MAX then I64_MAX else n }

  /** A JSON value, as far as the checkpoint looks into it. */
  datatype Json = Number(n: int) | Wait(nonce: nat, until: int) | Other(text: string)

  type Payload = map<string, Json>

  const GENERATION := "reconciled_generation"
  const APPLIED := "reconciled_at"
  const WAIT := "runtime_wait"

  datatype State = Provisioning | Ready | Stopping | Stopped | Starting | Restarting | Failed | Deleting | Deleted

  function AsU64(p: Payload, key: string): Option<u64> {
    if key in p && p[key].Number? && 0 <= p[key].n < U64_LIMIT then Some(p[key].n) else None
  }

  function AsI64(p: Payload, key: string): Option<i64> {
    if key in p && p[key].Number? && I64_MIN <= p[key].n <= I64_MAX then Some(p[key].n) else None
  }

  predicate Settling(s: State) { s in {Provisioning, Starting, Restarting, Stopping} }

  /** `startup_checkpoint_matches`. */
  predicate Matches(s: State, generation: u64, p: Payload, now: i64) {
    && Settling(s)
    && AsU64(p, GENERATION) == Some(generation)
    && AsI64(p, APPLIED).Some? && 0 <= Saturate(now - AsI64(p, APPLIED).value) < REPAIR_SECONDS
  }

  /** `checkpoint_error`: the payload a waiting run leaves. */
  function Checkpointed(p: Payload, generation: u64, applied: Option<i64>): Payload {
    var q := p - {WAIT};
    if applied.None? then q else q[GENERATION := Number(generation)][APPLIED := Number(applied.value)]
  }

  /** `park_workspace_for_readiness`: when the job may run again. */
  function ParkedUntil(p: Payload, now: i64): i64 {
    Saturate((if AsI64(p, APPLIED).Some? then AsI64(p, APPLIED).value else now) + REPAIR_SECONDS)
  }

  /** `park_workspace_job`. */
  function Parked(p: Payload, until: i64, nonce: nat): Payload { p[WAIT := Wait(nonce, until)] }

  // ------------------------------------------------------------------------------- runs

  /**
   One run that ends waiting: the workspace as it finds it, when it starts, when it
   has applied, when it is parked.
   */
  datatype Run = Run(state: State, generation: u64, start: i64, applied: i64, finish: i64, nonce: nat)

  predicate Applies(p: Payload, r: Run) { !Matches(r.state, r.generation, p, r.start) }

  function Left(p: Payload, r: Run): Payload {
    Checkpointed(p, r.generation, if Applies(p, r) then Some(r.applied) else None)
  }

  function AfterRun(p: Payload, r: Run): Payload {
    var q := Left(p, r);
    Parked(q, ParkedUntil(q, r.finish), r.nonce)
  }

  function AfterRuns(p: Payload, rs: seq<Run>): Payload {
    if rs == [] then p else AfterRun(AfterRuns(p, rs[..|rs| - 1]), rs[|rs| - 1])
  }

  /** When the job was last fully applied: by one of these runs, or as its payload said before. */
  function LastApplied(p: Payload, rs: seq<Run>): Option<i64> {
    if rs == [] then AsI64(p, APPLIED)
    else if Applies(AfterRuns(p, rs[..|rs| - 1]), rs[|rs| - 1]) then Some(rs[|rs| - 1].applied)
    else LastApplied(p, rs[..|rs| - 1])
  }

  /** The checkpoint of a generation, applied at this time. */
  predicate Marked(p: Payload, generation: u64, at: i64) {
    AsU64(p, GENERATION) == Some(generation) && AsI64(p, APPLIED) == Some(at)
  }

  lemma RunMarks(p: Payload, r: Run)
    ensures !Applies(p, r) ==> AsI64(p, APPLIED).Some?
    ensures var at := if Applies(p, r) then r.applied else AsI64(p, APPLIED).value;
            && Marked(AfterRun(p, r), r.generation, at)
            && WAIT in AfterRun(p, r)
            && AfterRun(p, r)[WAIT] == Wait(r.nonce, Saturate(at + REPAIR_SECONDS))
  {
    hide Saturate;
  }

  /**
   However many runs wait, from whatever payload and with the workspace changing
   under them, the job is parked until one repair interval after its last full
   apply, and marked with the generation of the last run: observing never moves
   the deadline.
   */
  lemma {:induction false} DeadlineFollowsLastApply(p: Payload, rs: seq<Run>)
    requires rs != []
    ensures LastApplied(p, rs).Some?
    ensures var last, q := LastApplied(p, rs).value, AfterRuns(p, rs);
            && Marked(q, rs[|rs| - 1].generation, last)
            && WAIT in q && q[WAIT] == Wait(rs[|rs| - 1].nonce, Saturate(last + REPAIR_SECONDS))
  {
    hide Matches, Saturate;
    var n := |rs| - 1;
    if n > 0 {
      DeadlineFollowsLastApply(p, rs[..n]);
    }
    RunMarks(AfterRuns(p, rs[..n]), rs[n]);
  }

  /** The deadline is the first instant from the apply on at which a run applies again. */
  lemma DeadlineIsExact(s: State, generation: u64, p: Payload, at: i64, now: i64)
    requires Settling(s) && Marked(p, generation, at) && at <= now
    requires at + REPAIR_SECONDS <= I64_MAX
    ensures Matches(s, generation, p, now) <==> now < Saturate(at + REPAIR_SECONDS)
  {
  }

  /** It is so for every instant exactly when the deadline is a representable time. */
  lemma DeadlineIsExactIff(s: State, generation: u64, p: Payload, at: i64)
    requires Settling(s) && Marked(p, generation, at)
    ensures (forall now: i64 :: at <= now ==> (Matches(s, generation, p, now) <==> now < Saturate(at + REPAIR_SECONDS)))
            <==> at + REPAIR_SECONDS <= I64_MAX
  {
    if at + REPAIR_SECONDS <= I64_MAX {
      forall now: i64 | at <= now
        ensures Matches(s, generation, p, now) <==> now < Saturate(at + REPAIR_SECONDS)
      {
        DeadlineIsExact(s, generation, p, at, now);
      }
    } else {
      var last: i64 := I64_MAX;
      assert Matches(s, generation, p, last) && !(last < Saturate(at + REPAIR_SECONDS));
    }
  }

  /** At the end of time a checkpoint is still fresh when its deadline has come. */
  lemma SaturatedDeadline()
    ensures var p: Payload := map[GENERATION := Number(1), APPLIED := Number(I64_MAX - 1)];
            && Matches(Starting, 1, p, I64_MAX)
            && ParkedUntil(p, I64_MAX) == I64_MAX
  {
    var p: Payload := map[GENERATION := Number(1), APPLIED := Number(I64_MAX - 1)];
    assert AsU64(p, GENERATION) == Some(1) && AsI64(p, APPLIED) == Some(I64_MAX - 1);
  }

  /** Everything else in the payload survives any number of waits. */
  lemma {:induction false} PayloadSurvives(p: Payload, rs: seq<Run>, key: string)
    requires key !in {GENERATION, APPLIED, WAIT}
    ensures var q := AfterRuns(p, rs);
            (key in q <==> key in p) && (key in p ==> q[key] == p[key])
  {
    if rs != [] {
      hide Matches;
      PayloadSurvives(p, rs[..|rs| - 1], key);
    }
  }

  /** A run that finds the workspace as the last one left it applies exactly from the deadline on. */
  lemma WaitingRunsApplyAtTheDeadline(p: Payload, rs: seq<Run>, r: Run)
    requires rs != [] && Settling(r.state) && r.generation == rs[|rs| - 1].generation
    requires LastApplied(p, rs).Some? ==>
               LastApplied(p, rs).value <= r.start && LastApplied(p, rs).value + REPAIR_SECONDS <= I64_MAX
    ensures var q := AfterRuns(p, rs);
            WAIT in q && q[WAIT].Wait? && (Applies(q, r) <==> r.start >= q[WAIT].until)
  {
    DeadlineFollowsLastApply(p, rs);
    DeadlineIsExact(r.state, r.generation, AfterRuns(p, rs), LastApplied(p, rs).value, r.start);
  }

  /**
   A checkpoint is fresh exactly while the workspace settles, at the checkpoint's
   generation, from its time on for one repair interval; a time before it, or one
   too far off to subtract, is never fresh.
   */
  lemma FreshIff(s: State, generation: u64, p: Payload, now: i64)
    ensures Matches(s, generation, p, now) <==>
              && (s == Provisioning || s == Starting || s == Restarting || s == Stopping)
              && exists at: i64 :: Marked(p, generation, at) && at <= now < at + 60
  {
    if Matches(s, generation, p, now) {
      assert Marked(p, generation, AsI64(p, APPLIED).value);
    }
  }

  /**
   Every other run applies: one that finds the workspace ready, stopped, failed or
   going, or at another generation, or that starts before the last apply.
   */
  lemma OtherRunsApply(p: Payload, rs: seq<Run>, r: Run)
    requires rs != []
    requires || r.state in {Ready, Stopped, Failed, Deleting, Deleted}
             || r.generation != rs[|rs| - 1].generation
             || (LastApplied(p, rs).Some? ==> r.start < LastApplied(p, rs).value)
    ensures Applies(AfterRuns(p, rs), r)
  {
    hide Matches, AfterRuns, LastApplied;
    DeadlineFollowsLastApply(p, rs);
    FreshIff(r.state, r.generation, AfterRuns(p, rs), r.start);
  }

  /** So does the first run of a job that has no checkpoint. */
  lemma FirstRunApplies(p: Payload, r: Run)
    requires GENERATION !in p || APPLIED !in p
    ensures Applies(p, r)
  {
  }
}
