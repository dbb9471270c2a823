/** Bounded overtaking: once a row is due, only rows already ahead of it can be claimed before it. */
module QueueFairness {
  import opened Domain
  import opened JobTable
  import opened Queue
  import opened QueueSafety
  import opened QueueOwnership
  import opened QueueAccounting
  import opened QueueTiming

  /** The other claimable rows that may be served before this one. */
  function Ahead(s: State, id: JobId): set<JobId>
    requires id in s.rows
  {
    set j | j in s.rows && j != id && Claimable(s.rows[j]) && s.rows[j].nextRunAt <= s.rows[id].nextRunAt
  }

  /** The waiting row, due strictly in the past. */
  predicate Waits(s: State, id: JobId, due: int) {
    id in s.rows && Claimable(s.rows[id]) && s.rows[id].nextRunAt == due && due < s.now
  }

  /** No other claim holds the waiting row when a dequeue selects, and rows entering the queue carry a
      stamp later than `due`. A stamp taken when the statement runs always is, because the row is
      already overdue by then. Claims may otherwise overlap. */
  ghost predicate Orderly(s: State, step: Step, id: JobId, due: int) {
    && (step.Select? ==> forall q :: !Holds(s, q, id))
    && (step.Enqueue? ==> step.at > due)
    && (step.Settle? && step.applied && step.h in s.live && s.live[step.h].stage.Executed? && MarkOf(s, step).Fail? ==>
          MarkOf(s, step).nextRunAt > due)
  }

  ghost predicate OrderlyRun(cfg: Config, s: State, run: seq<Step>, id: JobId, due: int)
    requires IsRun(cfg, s, run)
    decreases |run|
  {
    run == [] || (Orderly(s, run[0], id, due) && OrderlyRun(cfg, Do(cfg, s, run[0]), run[1..], id, due))
  }

  /** A pending claim either takes the waiting row or takes a full batch from ahead of it. */
  ghost predicate TxServes(cfg: Config, s: State, id: JobId, p: ProcId)
    requires id in s.rows && p in s.procs
  {
    var phase := s.procs[p].phase;
    && (Open(phase) ==> phase.start >= s.rows[id].nextRunAt)
    && (phase.Locked? && id !in phase.ids ==>
          |phase.ids| == cfg.concurrency && forall j :: j in phase.ids ==> j in Ahead(s, id))
  }

  ghost predicate Served(cfg: Config, s: State, id: JobId, due: int) {
    Waits(s, id, due) && forall p :: p in s.procs ==> TxServes(cfg, s, id, p)
  }

  predicate CommitsClaim(s: State, step: Step) {
    step.Commit? || step.CommitLost?
  }

  lemma WaitsStep(cfg: Config, s: State, step: Step, id: JobId, due: int)
    requires LocksOk(cfg, s) && Owned(s) && Enabled(cfg, s, step) && Waits(s, id, due)
    ensures Claims(s, step, id) || Waits(Do(cfg, s, step), id, due)
    ensures !Claims(s, step, id) ==> Do(cfg, s, step).rows[id] == s.rows[id]
  {
    RowChange(cfg, s, step, id);
    if Marks(s, step, id) { MarkHitsOwnRow(s, step, id); }
  }

  /** Nothing gets ahead of a waiting row; what a claim takes leaves. */
  lemma AheadStep(cfg: Config, s: State, step: Step, id: JobId, due: int, j: JobId)
    requires LocksOk(cfg, s) && Owned(s) && Enabled(cfg, s, step) && Orderly(s, step, id, due)
    requires Waits(s, id, due) && !Claims(s, step, id)
    requires id in Do(cfg, s, step).rows && j in Ahead(Do(cfg, s, step), id)
    ensures j in Ahead(s, id) && !Claims(s, step, j)
  {
    WaitsStep(cfg, s, step, id, due);
    if j in s.rows {
      RowChange(cfg, s, step, j);
    } else {
      RowAppears(cfg, s, step, j);
    }
  }

  lemma AheadKept(cfg: Config, s: State, step: Step, id: JobId, due: int, p: ProcId, j: JobId)
    requires LocksOk(cfg, s) && Owned(s) && Enabled(cfg, s, step)
    requires Waits(s, id, due) && !Claims(s, step, id) && id in Do(cfg, s, step).rows
    requires Holds(s, p, j) && (CommitsClaim(s, step) ==> step.p != p) && j in Ahead(s, id)
    ensures j in Ahead(Do(cfg, s, step), id)
  {
    WaitsStep(cfg, s, step, id, due);
    LockedRowsUntouched(cfg, s, step, p, j);
  }

  lemma TxServesSelect(cfg: Config, s: State, step: Step, id: JobId, due: int)
    requires LocksOk(cfg, s) && Enabled(cfg, s, step) && step.Select? && Orderly(s, step, id, due)
    requires Waits(s, id, due) && TxServes(cfg, s, id, step.p)
    ensures id in Do(cfg, s, step).rows && TxServes(cfg, Do(cfg, s, step), id, step.p)
  {
    var start := s.procs[step.p].phase.start;
    assert id !in LockedIds(s);
    assert Selectable(s.rows, LockedIds(s), start, id);
    if step.ids != [] { assert step.ids[0] in step.ids; }
  }

  lemma TxServesStep(cfg: Config, s: State, step: Step, id: JobId, due: int, p: ProcId)
    requires Sound(cfg, s) && Owned(s) && Enabled(cfg, s, step) && Orderly(s, step, id, due)
    requires Served(cfg, s, id, due) && !Claims(s, step, id) && p in Do(cfg, s, step).procs
    ensures id in Do(cfg, s, step).rows && TxServes(cfg, Do(cfg, s, step), id, p)
  {
    WaitsStep(cfg, s, step, id, due);
    var s' := Do(cfg, s, step);
    if step.Select? && step.p == p {
      TxServesSelect(cfg, s, step, id, due);
    } else if p in s.procs && s'.procs[p].phase.Locked? {
      assert TxServes(cfg, s, id, p);
      PhaseKept(cfg, s, step, p);
      if id !in s.procs[p].phase.ids {
        forall j | j in s.procs[p].phase.ids
          ensures j in Ahead(s', id)
        {
          assert Holds(s, p, j);
          AheadKept(cfg, s, step, id, due, p, j);
        }
      }
    } else {
      OpenKept(cfg, s, step, id, p);
    }
  }

  lemma PhaseKept(cfg: Config, s: State, step: Step, p: ProcId)
    requires Enabled(cfg, s, step) && p in s.procs && p in Do(cfg, s, step).procs
    requires Do(cfg, s, step).procs[p].phase.Locked? && !(step.Select? && step.p == p)
    ensures Do(cfg, s, step).procs[p].phase == s.procs[p].phase
    ensures CommitsClaim(s, step) ==> step.p != p
  {
  }

  lemma OpenKept(cfg: Config, s: State, step: Step, id: JobId, p: ProcId)
    requires Enabled(cfg, s, step) && p in Do(cfg, s, step).procs && id in s.rows && id in Do(cfg, s, step).rows
    requires Do(cfg, s, step).rows[id] == s.rows[id] && s.rows[id].nextRunAt < s.now
    requires p in s.procs ==> TxServes(cfg, s, id, p)
    requires !Do(cfg, s, step).procs[p].phase.Locked?
    ensures TxServes(cfg, Do(cfg, s, step), id, p)
  {
  }

  lemma AheadShrinksOnCommit(cfg: Config, s: State, step: Step, id: JobId, rest: set<JobId>)
    requires LocksOk(cfg, s) && Enabled(cfg, s, step) && CommitsClaim(s, step) && id in s.rows
    requires TxServes(cfg, s, id, step.p) && !Claims(s, step, id)
    requires rest <= Ahead(s, id) && forall j :: j in rest ==> !Claims(s, step, j)
    ensures |rest| + cfg.concurrency <= |Ahead(s, id)|
  {
    var ids := s.procs[step.p].phase.ids;
    var taken := Elements(ids);
    assert TxOk(cfg, s, step.p);
    DistinctSize(ids);
    assert forall j :: j in taken ==> Claims(s, step, j);
    assert id !in ids && taken <= Ahead(s, id);
    assert rest * taken == {};
    assert |rest + taken| == |rest| + |taken|;
    SubsetSize(rest + taken, Ahead(s, id));
  }

  /** A step that does not take the waiting row keeps it served; if the step commits a claim, the rows
      ahead of it shrink by a full batch. */
  lemma ServedStep(cfg: Config, s: State, step: Step, id: JobId, due: int)
    requires Sound(cfg, s) && Owned(s) && Enabled(cfg, s, step) && Orderly(s, step, id, due)
    requires Served(cfg, s, id, due) && !Claims(s, step, id)
    ensures Served(cfg, Do(cfg, s, step), id, due)
    ensures |Ahead(Do(cfg, s, step), id)| + (if CommitsClaim(s, step) then cfg.concurrency else 0) <= |Ahead(s, id)|
  {
    WaitsStep(cfg, s, step, id, due);
    var s' := Do(cfg, s, step);
    forall p | p in s'.procs ensures TxServes(cfg, s', id, p) { TxServesStep(cfg, s, step, id, due, p); }
    forall j | j in Ahead(s', id)
      ensures j in Ahead(s, id) && !Claims(s, step, j)
    {
      AheadStep(cfg, s, step, id, due, j);
    }
    if CommitsClaim(s, step) {
      AheadShrinksOnCommit(cfg, s, step, id, Ahead(s', id));
    } else {
      SubsetSize(Ahead(s', id), Ahead(s, id));
    }
  }

  function CommitEvent(): (State, Step) -> bool { (s, step) => CommitsClaim(s, step) }

  /** n full batches of b rows. */
  function Batches(n: nat, b: nat): nat {
    if n == 0 then 0 else Batches(n - 1, b) + b
  }

  lemma {:induction false} BatchesProduct(n: nat, b: nat)
    ensures Batches(n, b) == n * b
  {
    if n > 0 {
      BatchesProduct(n - 1, b);
      assert (n - 1) * b + b == n * b;
    }
  }

  /** n batches of b rows fit among those ahead. */
  predicate Fit(n: nat, b: nat, ahead: nat) {
    Batches(n, b) <= ahead
  }

  lemma FitOneMore(n: nat, b: nat, ahead: nat, after: nat, commit: bool)
    requires Fit(n, b, after) && after + (if commit then b else 0) <= ahead
    ensures Fit(n + One(commit), b, ahead)
  {
  }

  lemma CountFirst(cfg: Config, s: State, run: seq<Step>, event: (State, Step) -> bool)
    requires run != [] && IsRun(cfg, s, run)
    ensures Count(cfg, s, run, event) == Count(cfg, Do(cfg, s, run[0]), run[1..], event) + One(event(s, run[0]))
  {
  }

  lemma ServedFirst(cfg: Config, s: State, step: Step, id: JobId, due: int)
    requires Sound(cfg, s) && Owned(s) && Served(cfg, s, id, due)
    requires Enabled(cfg, s, step) && Gentle(cfg, s, step) && Orderly(s, step, id, due) && !Claims(s, step, id)
    ensures var s' := Do(cfg, s, step);
      && Sound(cfg, s') && Owned(s') && Served(cfg, s', id, due)
      && |Ahead(s', id)| + (if CommitsClaim(s, step) then cfg.concurrency else 0) <= |Ahead(s, id)|
  {
    ServedStep(cfg, s, step, id, due);
    SoundStep(cfg, s, step);
    OwnedStep(cfg, s, step);
  }

  /** The row is claimed in the run, or the run's commits fit among those ahead. */
  ghost predicate ClaimedOrFit(cfg: Config, s: State, run: seq<Step>, id: JobId, ahead: nat)
    requires IsRun(cfg, s, run)
  {
    Count(cfg, s, run, ClaimOf(id)) >= 1 || Fit(Count(cfg, s, run, CommitEvent()), cfg.concurrency, ahead)
  }

  lemma ClaimedOrFitFirst(cfg: Config, s: State, run: seq<Step>, id: JobId, ahead: nat, after: nat)
    requires run != [] && IsRun(cfg, s, run)
    requires Claims(s, run[0], id) || ClaimedOrFit(cfg, Do(cfg, s, run[0]), run[1..], id, after)
    requires Claims(s, run[0], id) || after + (if CommitsClaim(s, run[0]) then cfg.concurrency else 0) <= ahead
    ensures ClaimedOrFit(cfg, s, run, id, ahead)
  {
    CountFirst(cfg, s, run, ClaimOf(id));
    CountFirst(cfg, s, run, CommitEvent());
    var n := Count(cfg, Do(cfg, s, run[0]), run[1..], CommitEvent());
    if Fit(n, cfg.concurrency, after) && !Claims(s, run[0], id) {
      FitOneMore(n, cfg.concurrency, ahead, after, CommitsClaim(s, run[0]));
    }
  }

  lemma {:induction false} OvertakingRun(cfg: Config, s: State, run: seq<Step>, id: JobId, due: int)
    requires Sound(cfg, s) && Owned(s) && Served(cfg, s, id, due)
    requires IsRun(cfg, s, run) && GentleRun(cfg, s, run) && OrderlyRun(cfg, s, run, id, due)
    ensures ClaimedOrFit(cfg, s, run, id, |Ahead(s, id)|)
    decreases |run|
  {
    if run != [] {
      var s' := Do(cfg, s, run[0]);
      if Claims(s, run[0], id) {
        ClaimedOrFitFirst(cfg, s, run, id, |Ahead(s, id)|, 0);
      } else {
        ServedFirst(cfg, s, run[0], id, due);
        OvertakingRun(cfg, s', run[1..], id, due);
        ClaimedOrFitFirst(cfg, s, run, id, |Ahead(s, id)|, |Ahead(s', id)|);
      }
    }
  }

  /** Bounded overtaking. From a state where a due row waits and no claim is open, with batches of
      size B, honest stamps and nobody skipping the row because it is locked, floor(ahead / B) + 1
      committed dequeues, overlapping or not, are enough for the row to be claimed. */
  lemma BoundedOvertaking(cfg: Config, s: State, run: seq<Step>, id: JobId)
    requires Sound(cfg, s) && Owned(s) && cfg.concurrency >= 1
    requires id in s.rows && Waits(s, id, s.rows[id].nextRunAt)
    requires forall p :: p in s.procs ==> !Open(s.procs[p].phase)
    requires IsRun(cfg, s, run) && GentleRun(cfg, s, run) && OrderlyRun(cfg, s, run, id, s.rows[id].nextRunAt)
    requires Count(cfg, s, run, CommitEvent()) >= |Ahead(s, id)| / cfg.concurrency + 1
    ensures Count(cfg, s, run, ClaimOf(id)) >= 1
  {
    OvertakingRun(cfg, s, run, id, s.rows[id].nextRunAt);
    var n, b, a := Count(cfg, s, run, CommitEvent()), cfg.concurrency, |Ahead(s, id)|;
    BatchesProduct(n, b);
    MoreThanFloor(n, b, a);
  }

  lemma MoreThanFloor(n: nat, b: nat, a: nat)
    requires b >= 1 && n >= a / b + 1
    ensures n * b > a
  {
    assert a == b * (a / b) + a % b;
    MulMonotone(a / b + 1, n, b);
  }

  lemma MulMonotone(x: nat, y: nat, b: nat)
    requires x <= y
    ensures x * b <= y * b
  {
  }

  /** A step that writes a stamp no later than `due` on a row it puts into the queue. */
  predicate StaleStamp(s: State, step: Step, due: int, j: JobId) {
    || (step.Enqueue? && step.id == j && step.at <= due)
    || (Marks(s, step, j) && MarkOf(s, step).Fail? && MarkOf(s, step).nextRunAt <= due)
  }

  /** The condition on stamps is exact: a row newly gets ahead of a waiting one if and only if it is
      enqueued, or put back by an applied retry mark, with a stamp no later than the waiting row's. A
      reset never does it. A new job disturbs nobody else, and its stamp is then older than its insert. */
  lemma OvertakesExactly(cfg: Config, s: State, step: Step, id: JobId, due: int, j: JobId)
    requires LocksOk(cfg, s) && Owned(s) && Enabled(cfg, s, step)
    requires Waits(s, id, due) && !Claims(s, step, id)
    ensures id in s.rows && id in Do(cfg, s, step).rows
    ensures j in Ahead(Do(cfg, s, step), id) && j !in Ahead(s, id) <==> j != id && StaleStamp(s, step, due, j)
    ensures step.Enqueue? && StaleStamp(s, step, due, j) ==>
              Ahead(Do(cfg, s, step), id) == Ahead(s, id) + {j} && step.at < s.now
  {
    WaitsStep(cfg, s, step, id, due);
    if step.Enqueue? {
      EnqueueAhead(cfg, s, step, id, due);
    } else {
      if Marks(s, step, j) { MarkHitsOwnRow(s, step, j); }
      if j in s.rows { RowChange(cfg, s, step, j); } else { RowAppears(cfg, s, step, j); }
    }
  }

  lemma EnqueueAhead(cfg: Config, s: State, step: Step, id: JobId, due: int)
    requires Enabled(cfg, s, step) && step.Enqueue? && Waits(s, id, due)
    ensures id in Do(cfg, s, step).rows
    ensures Ahead(Do(cfg, s, step), id) == if step.at <= due then Ahead(s, id) + {step.id} else Ahead(s, id)
  {
  }
}
