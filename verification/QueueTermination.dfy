/** A measure on the jobs table that claims and marks lower and only resets raise, so that every run
    without a reset of a live job does a bounded amount of work. */
module QueueTermination {
  import opened Domain
  import opened JobTable
  import opened Queue
  import opened QueueSafety
  import opened QueueOwnership
  import opened QueueAccounting
  import opened Sums

  /** Claims and marks a row can still absorb without being reset. */
  function Rank(r: Row): int {
    if Terminal(r) then 0
    else if r.status == Running then 2 * (Budget(r) - r.attempts) - 1
    else 2 * (Budget(r) - r.attempts)
  }

  function RankAt(s: State): JobId -> int {
    (id: JobId) => if id in s.rows then Rank(s.rows[id]) else 0
  }

  ghost function TotalRank(s: State): int {
    Sum(s.rows.Keys, RankAt(s))
  }

  ghost function ClaimedIds(s: State, step: Step): set<JobId> {
    set id | id in s.rows && Claims(s, step, id)
  }

  ghost function ResetIds(cfg: Config, s: State, step: Step): set<JobId> {
    set id | id in s.rows && Resets(cfg, s, step, id)
  }

  /** One row: a claim costs one, a mark costs at least one, a reset gives one back. */
  lemma RankOfRow(r: Row, snap: Row, at: int, outcome: Outcome, now: int)
    requires WithinBudget(r)
    ensures Rank(r) >= 0
    ensures Claimable(r) ==> Rank(AsRunning(r, at)) == Rank(r) - 1
    ensures r.status == Running ==> Rank(AsReset(r, at)) == Rank(r) + 1
    ensures r.status == Running && r.attempts == snap.attempts && r.maxAttempts == snap.maxAttempts ==>
              0 <= Rank(MarkedRow(r, Decide(snap, outcome, at), now)) < Rank(r)
  {
  }

  lemma RankStep(cfg: Config, s: State, step: Step, id: JobId)
    requires LocksOk(cfg, s) && Owned(s) && Enabled(cfg, s, step) && id in s.rows && WithinBudget(s.rows[id])
    ensures id in Do(cfg, s, step).rows
    ensures !Marks(s, step, id) ==>
              RankAt(Do(cfg, s, step))(id) == RankAt(s)(id) - One(Claims(s, step, id)) + One(Resets(cfg, s, step, id))
    ensures Marks(s, step, id) ==> 0 <= RankAt(Do(cfg, s, step))(id) < RankAt(s)(id)
  {
    RowChange(cfg, s, step, id);
    var r := s.rows[id];
    if Marks(s, step, id) {
      MarkHitsOwnRow(s, step, id);
      RankOfRow(r, s.live[step.h].snap, step.at, s.live[step.h].stage.outcome, s.now);
    } else if Claims(s, step, id) {
      RankOfRow(r, r, s.procs[step.p].phase.start, Skipped, s.now);
    } else {
      RankOfRow(r, r, s.now, Skipped, s.now);
    }
  }

  /** Pointwise changes of minus one and plus one add up to the sizes of the two sets. */
  lemma SumShift(keys: set<JobId>, f: JobId -> int, g: JobId -> int, down: set<JobId>, up: set<JobId>)
    requires down <= keys && up <= keys
    requires forall id :: id in keys ==> g(id) == f(id) - Indicator(down)(id) + Indicator(up)(id)
    ensures Sum(keys, g) == Sum(keys, f) - |down| + |up|
  {
    var mid := (id: JobId) => f(id) + Indicator(up)(id);
    SumPlus(keys, mid, g, Indicator(down));
    SumPlus(keys, mid, f, Indicator(up));
    SumIndicator(keys, down);
    SumIndicator(keys, up);
  }

  lemma KeysFixed(cfg: Config, s: State, step: Step)
    requires Enabled(cfg, s, step) && !step.Enqueue?
    ensures Do(cfg, s, step).rows.Keys == s.rows.Keys
  {
  }

  lemma RankShift(cfg: Config, s: State, step: Step, id: JobId)
    requires LocksOk(cfg, s) && Owned(s) && Enabled(cfg, s, step) && id in s.rows && WithinBudget(s.rows[id])
    requires !step.Settle?
    ensures RankAt(Do(cfg, s, step))(id) ==
            RankAt(s)(id) - Indicator(ClaimedIds(s, step))(id) + Indicator(ResetIds(cfg, s, step))(id)
  {
    RankStep(cfg, s, step, id);
  }

  lemma TotalRankQuiet(cfg: Config, s: State, step: Step)
    requires LocksOk(cfg, s) && Owned(s) && AttemptsOk(s) && Enabled(cfg, s, step)
    requires !step.Enqueue? && !step.Settle?
    ensures TotalRank(Do(cfg, s, step)) == TotalRank(s) - |ClaimedIds(s, step)| + |ResetIds(cfg, s, step)|
  {
    var s' := Do(cfg, s, step);
    var down, up := ClaimedIds(s, step), ResetIds(cfg, s, step);
    var f, g := RankAt(s), RankAt(s');
    forall id | id in s.rows.Keys
      ensures g(id) == f(id) - Indicator(down)(id) + Indicator(up)(id)
    {
      RankShift(cfg, s, step, id);
    }
    SumShift(s.rows.Keys, f, g, down, up);
    KeysFixed(cfg, s, step);
  }

  lemma TotalRankMark(cfg: Config, s: State, step: Step)
    requires Sound(cfg, s) && Owned(s) && AttemptsOk(s) && Enabled(cfg, s, step) && step.Settle?
    ensures if step.applied then TotalRank(Do(cfg, s, step)) < TotalRank(s)
            else TotalRank(Do(cfg, s, step)) == TotalRank(s)
  {
    var s' := Do(cfg, s, step);
    var id := s.live[step.h].job;
    assert IsOwner(s, step.h) && OwnsRow(s, step.h);
    assert s'.rows.Keys == s.rows.Keys;
    RankStep(cfg, s, step, id);
    forall other | other in s.rows.Keys - {id}
      ensures RankAt(s')(other) == RankAt(s)(other)
    {
      RankStep(cfg, s, step, other);
    }
    SumSplit(s.rows.Keys, RankAt(s), id);
    SumSplit(s.rows.Keys, RankAt(s'), id);
    SumSame(s.rows.Keys - {id}, RankAt(s), RankAt(s'));
  }

  /** What one step does to the whole table's measure: a claim lowers it by one per row, an applied
      mark lowers it, a reset raises it by one per row, a new job adds 2*max(1, MaxAttempts), and
      nothing else changes it. */
  lemma TotalRankStep(cfg: Config, s: State, step: Step)
    requires Sound(cfg, s) && Owned(s) && AttemptsOk(s) && Enabled(cfg, s, step)
    ensures var before, after := TotalRank(s), TotalRank(Do(cfg, s, step));
            if step.Enqueue? then after == before + 2 * Max(1, cfg.maxAttempts)
            else if step.Settle? then (if step.applied then after < before else after == before)
            else after == before - |ClaimedIds(s, step)| + |ResetIds(cfg, s, step)|
  {
    if step.Enqueue? {
      var s' := Do(cfg, s, step);
      assert s'.rows.Keys - {step.id} == s.rows.Keys;
      SumSplit(s'.rows.Keys, RankAt(s'), step.id);
      SumSame(s.rows.Keys, RankAt(s), RankAt(s'));
    } else if step.Settle? {
      TotalRankMark(cfg, s, step);
    } else {
      TotalRankQuiet(cfg, s, step);
    }
  }

  // ----- bound over a run -----

  ghost function Work(cfg: Config, s: State, run: seq<Step>, id: JobId): nat
    requires IsRun(cfg, s, run)
  {
    Count(cfg, s, run, ClaimOf(id)) + Count(cfg, s, run, MarkOn(id))
  }

  /** A row not yet enqueued counts as having its whole allowance left. */
  function Left(cfg: Config, s: State, id: JobId): int {
    if id in s.rows then Rank(s.rows[id]) else 2 * Max(1, cfg.maxAttempts)
  }

  lemma NoMarkOfMissing(s: State, step: Step, id: JobId)
    requires Owned(s) && id !in s.rows
    ensures !Marks(s, step, id)
  {
    assert Marks(s, step, id) ==> IsOwner(s, step.h);
  }

  lemma {:induction false} WorkRun(cfg: Config, s: State, run: seq<Step>, id: JobId)
    requires Sound(cfg, s) && Owned(s) && AttemptsOk(s) && IsRun(cfg, s, run) && GentleRun(cfg, s, run)
    ensures Work(cfg, s, run, id) + Left(cfg, Exec(cfg, s, run), id)
            <= Left(cfg, s, id) + Count(cfg, s, run, ResetOf(cfg, id))
    decreases |run|
  {
    if run != [] {
      if id in s.rows {
        RankStep(cfg, s, run[0], id);
      } else {
        RowAppears(cfg, s, run[0], id);
        NoClaimOfMissing(cfg, s, run[0], id);
        NoMarkOfMissing(s, run[0], id);
      }
      SoundStep(cfg, s, run[0]);
      OwnedStep(cfg, s, run[0]);
      AttemptsOkStep(cfg, s, run[0]);
      WorkRun(cfg, Do(cfg, s, run[0]), run[1..], id);
    }
  }

  /** One job: its claims and applied marks together never exceed twice its attempt budget plus the
      number of times it was reset. */
  lemma WorkOfOneJob(cfg: Config, s: State, run: seq<Step>, id: JobId)
    requires Init(s) && IsRun(cfg, s, run) && GentleRun(cfg, s, run)
    ensures Work(cfg, s, run, id) <= 2 * Max(1, cfg.maxAttempts) + Count(cfg, s, run, ResetOf(cfg, id))
  {
    WorkRun(cfg, s, run, id);
    AttemptsOkRun(cfg, s, run);
    var e := Exec(cfg, s, run);
    if id in e.rows { RankOfRow(e.rows[id], e.rows[id], 0, Skipped, 0); }
  }

  /** Claims and applied marks, summed over all rows, never exceed 2*max(1, MaxAttempts) per row plus
      the number of resets, however long the run. */
  lemma WorkIsBounded(cfg: Config, s: State, run: seq<Step>)
    requires Init(s) && IsRun(cfg, s, run) && GentleRun(cfg, s, run)
    ensures var keys := Exec(cfg, s, run).rows.Keys;
            Sum(keys, WorkFn(cfg, s, run)) <=
            |keys| * (2 * Max(1, cfg.maxAttempts)) + Sum(keys, ResetFn(cfg, s, run))
  {
    var keys := Exec(cfg, s, run).rows.Keys;
    var allowance := 2 * Max(1, cfg.maxAttempts);
    var work, resets := WorkFn(cfg, s, run), ResetFn(cfg, s, run);
    forall id ensures work(id) <= allowance + resets(id) { WorkOfOneJob(cfg, s, run, id); }
    SumWithin(keys, work, resets, allowance);
  }

  lemma SumWithin(keys: set<JobId>, f: JobId -> int, g: JobId -> int, c: int)
    requires forall id :: f(id) <= c + g(id)
    ensures Sum(keys, f) <= |keys| * c + Sum(keys, g)
  {
    var constant := (_: JobId) => c;
    var bound := (id: JobId) => c + g(id);
    SumAtMost(keys, f, bound);
    SumPlus(keys, bound, constant, g);
    SumConstant(keys, c, constant);
  }

  lemma {:induction false} SumConstant(keys: set<JobId>, c: int, f: JobId -> int)
    requires forall id :: f(id) == c
    ensures Sum(keys, f) == |keys| * c
  {
    if keys != {} {
      var k :| k in keys;
      SumSplit(keys, f, k);
      SumConstant(keys - {k}, c, f);
    }
  }

  ghost function WorkFn(cfg: Config, s: State, run: seq<Step>): JobId -> int
    requires IsRun(cfg, s, run)
  {
    (id: JobId) => Work(cfg, s, run, id)
  }

  ghost function ResetFn(cfg: Config, s: State, run: seq<Step>): JobId -> int
    requires IsRun(cfg, s, run)
  {
    (id: JobId) => Count(cfg, s, run, ResetOf(cfg, id))
  }
}
