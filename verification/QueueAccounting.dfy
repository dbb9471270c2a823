/** Counting over whole runs: claims against attempts and resets, a termination measure, requeues
    between claims, and Jira transitions. Events are read off the steps of the run. */
module QueueAccounting {
  import opened Domain
  import opened JobTable
  import opened Queue
  import opened QueueSafety
  import opened QueueOwnership

  /** How often an event happens along a run. */
  ghost function Count(cfg: Config, s: State, run: seq<Step>, event: (State, Step) -> bool): nat
    requires IsRun(cfg, s, run)
    decreases |run|
  {
    if run == [] then 0
    else (if event(s, run[0]) then 1 else 0) + Count(cfg, Do(cfg, s, run[0]), run[1..], event)
  }

  function ClaimOf(id: JobId): (State, Step) -> bool { (s, step) => Claims(s, step, id) }

  function MarkOn(id: JobId): (State, Step) -> bool { (s, step) => Marks(s, step, id) }

  function ResetOf(cfg: Config, id: JobId): (State, Step) -> bool { (s, step) => Resets(cfg, s, step, id) }

  function One(b: bool): nat { if b then 1 else 0 }

  // ----- conservation -----

  /** Attempts recorded on the row, plus one for a claim that is running or was completed. */
  function Spent(s: State, id: JobId): nat {
    if id in s.rows then s.rows[id].attempts + One(s.rows[id].status in {Running, Completed}) else 0
  }

  lemma SpentStep(cfg: Config, s: State, step: Step, id: JobId)
    requires LocksOk(cfg, s) && Owned(s) && Enabled(cfg, s, step)
    ensures Spent(Do(cfg, s, step), id) + One(Resets(cfg, s, step, id)) == Spent(s, id) + One(Claims(s, step, id))
  {
    if id in s.rows {
      RowChange(cfg, s, step, id);
      if Marks(s, step, id) { MarkHitsOwnRow(s, step, id); }
    } else {
      RowAppears(cfg, s, step, id);
      NoClaimOfMissing(cfg, s, step, id);
    }
  }

  lemma NoClaimOfMissing(cfg: Config, s: State, step: Step, id: JobId)
    requires LocksOk(cfg, s) && id !in s.rows && Enabled(cfg, s, step)
    ensures !Claims(s, step, id)
  {
    if step.Commit? || step.CommitLost? {
      assert TxOk(cfg, s, step.p);
    }
  }

  lemma {:induction false} SpentRun(cfg: Config, s: State, run: seq<Step>, id: JobId)
    requires Sound(cfg, s) && Owned(s) && IsRun(cfg, s, run) && GentleRun(cfg, s, run)
    ensures Spent(Exec(cfg, s, run), id) + Count(cfg, s, run, ResetOf(cfg, id))
            == Spent(s, id) + Count(cfg, s, run, ClaimOf(id))
    decreases |run|
  {
    if run != [] {
      SpentStep(cfg, s, run[0], id);
      SoundStep(cfg, s, run[0]);
      OwnedStep(cfg, s, run[0]);
      SpentRun(cfg, Do(cfg, s, run[0]), run[1..], id);
    }
  }

  // ----- attempt bound -----

  function Budget(r: Row): (n: int)
    ensures n >= 1 && n >= r.maxAttempts && (n == 1 || n == r.maxAttempts)
  {
    Max(1, r.maxAttempts)
  }

  predicate WithinBudget(r: Row) {
    if r.status == Dead then r.attempts <= Budget(r) else r.attempts < Budget(r)
  }

  ghost predicate AttemptsOk(s: State) {
    forall id :: id in s.rows ==> WithinBudget(s.rows[id])
  }

  lemma WithinBudgetStep(cfg: Config, s: State, step: Step, id: JobId)
    requires LocksOk(cfg, s) && Owned(s) && Enabled(cfg, s, step) && id in Do(cfg, s, step).rows
    requires id in s.rows ==> WithinBudget(s.rows[id])
    ensures WithinBudget(Do(cfg, s, step).rows[id])
  {
    if id in s.rows {
      RowChange(cfg, s, step, id);
      if Marks(s, step, id) {
        MarkHitsOwnRow(s, step, id);
        MarkedWithinBudget(s.rows[id], s.live[step.h].snap, s.live[step.h].stage.outcome, step.at, s.now);
      }
    } else {
      RowAppears(cfg, s, step, id);
    }
  }

  /** The decision to retry leaves an attempt; the decision to give up uses at most the last one. */
  lemma MarkedWithinBudget(r: Row, snap: Row, outcome: Outcome, at: int, now: int)
    requires WithinBudget(r) && r.status == Running
    requires r.attempts == snap.attempts && r.maxAttempts == snap.maxAttempts
    ensures WithinBudget(MarkedRow(r, Decide(snap, outcome, at), now))
  {
  }

  lemma AttemptsOkStep(cfg: Config, s: State, step: Step)
    requires Sound(cfg, s) && Owned(s) && AttemptsOk(s) && Enabled(cfg, s, step)
    ensures AttemptsOk(Do(cfg, s, step))
  {
    var s' := Do(cfg, s, step);
    forall id | id in s'.rows ensures WithinBudget(s'.rows[id]) { WithinBudgetStep(cfg, s, step, id); }
  }

  lemma {:induction false} AttemptsOkRun(cfg: Config, s: State, run: seq<Step>)
    requires Sound(cfg, s) && Owned(s) && AttemptsOk(s) && IsRun(cfg, s, run) && GentleRun(cfg, s, run)
    ensures AttemptsOk(Exec(cfg, s, run))
    decreases |run|
  {
    if run != [] {
      SoundStep(cfg, s, run[0]);
      OwnedStep(cfg, s, run[0]);
      AttemptsOkStep(cfg, s, run[0]);
      AttemptsOkRun(cfg, Do(cfg, s, run[0]), run[1..]);
    }
  }

  /** Every claim of a row is accounted for by a recorded attempt, a reset, or the row still being
      running or completed; and attempts stay within max(1, MaxAttempts). */
  lemma ClaimsAccountedFor(cfg: Config, s: State, run: seq<Step>, id: JobId)
    requires Init(s) && IsRun(cfg, s, run) && GentleRun(cfg, s, run)
    requires id in Exec(cfg, s, run).rows
    ensures var r := Exec(cfg, s, run).rows[id];
            var claims := Count(cfg, s, run, ClaimOf(id));
            var resets := Count(cfg, s, run, ResetOf(cfg, id));
            && claims == r.attempts + resets + One(r.status in {Running, Completed})
            && (!Terminal(r) ==> r.attempts < Budget(r))
            && r.attempts <= Budget(r)
            && claims <= Budget(r) + resets
  {
    SpentRun(cfg, s, run, id);
    AttemptsOkRun(cfg, s, run);
    OwnedRun(cfg, s, run);
  }

  // ----- requeues between claims (no ownership needed) -----

  /** An applied retry mark or a reset of this row. */
  function RequeueOf(cfg: Config, id: JobId): (State, Step) -> bool {
    (s, step) => (Marks(s, step, id) && MarkOf(s, step).Fail?) || Resets(cfg, s, step, id)
  }

  function InQueue(s: State, id: JobId): bool {
    id in s.rows && Claimable(s.rows[id])
  }

  lemma RequeueStep(cfg: Config, s: State, step: Step, id: JobId)
    requires LocksOk(cfg, s) && Enabled(cfg, s, step) && id in s.rows
    ensures id in Do(cfg, s, step).rows
    ensures One(Claims(s, step, id)) + One(InQueue(Do(cfg, s, step), id))
            <= One(InQueue(s, id)) + One(RequeueOf(cfg, id)(s, step))
  {
    RowChange(cfg, s, step, id);
  }

  lemma {:induction false} RequeueRun(cfg: Config, s: State, run: seq<Step>, id: JobId)
    requires Sound(cfg, s) && IsRun(cfg, s, run) && id in s.rows
    ensures Count(cfg, s, run, ClaimOf(id)) + One(InQueue(Exec(cfg, s, run), id))
            <= One(InQueue(s, id)) + Count(cfg, s, run, RequeueOf(cfg, id))
    decreases |run|
  {
    if run != [] {
      RequeueStep(cfg, s, run[0], id);
      SoundStep(cfg, s, run[0]);
      RequeueRun(cfg, Do(cfg, s, run[0]), run[1..], id);
    }
  }

  lemma ClaimedIsInQueue(cfg: Config, s: State, step: Step, id: JobId)
    requires LocksOk(cfg, s) && Enabled(cfg, s, step) && Claims(s, step, id)
    ensures InQueue(s, id) && !InQueue(Do(cfg, s, step), id) && id in Do(cfg, s, step).rows
  {
    assert TxOk(cfg, s, step.p);
    RowChange(cfg, s, step, id);
  }

  /** In any run at all, two committed claims of one row are separated by a retry mark or a reset. */
  lemma RequeuedBetweenClaims(cfg: Config, s: State, first: Step, mid: seq<Step>, second: Step, id: JobId)
    requires Sound(cfg, s) && Enabled(cfg, s, first) && Claims(s, first, id)
    requires IsRun(cfg, Do(cfg, s, first), mid)
    requires var e := Exec(cfg, Do(cfg, s, first), mid); Enabled(cfg, e, second) && Claims(e, second, id)
    ensures Count(cfg, Do(cfg, s, first), mid, RequeueOf(cfg, id)) >= 1
  {
    var s1 := Do(cfg, s, first);
    ClaimedIsInQueue(cfg, s, first, id);
    SoundStep(cfg, s, first);
    RequeueRun(cfg, s1, mid, id);
    SoundRun(cfg, s1, mid);
    ClaimedIsInQueue(cfg, Exec(cfg, s1, mid), second, id);
  }

  /** In any run at all, open claim transactions hold pairwise disjoint rows, and what they hold is
      still claimable, due, and unchanged since it was selected. */
  lemma ClaimsAreDisjoint(cfg: Config, s: State, run: seq<Step>, p: ProcId, id: JobId)
    requires Init(s) && IsRun(cfg, s, run) && Holds(Exec(cfg, s, run), p, id)
    ensures var e := Exec(cfg, s, run);
            && (forall q :: Holds(e, q, id) ==> q == p)
            && id in e.rows && Due(e.rows[id], e.procs[p].phase.start)
            && id in e.procs[p].phase.snaps && e.rows[id] == e.procs[p].phase.snaps[id]
  {
    SoundRun(cfg, s, run);
    assert TxOk(cfg, Exec(cfg, s, run), p);
  }

  // ----- recoverability -----

  lemma RollbackUnlocks(cfg: Config, s: State, p: ProcId, id: JobId)
    requires LocksOk(cfg, s) && Holds(s, p, id)
    ensures Enabled(cfg, s, Rollback(p)) && !IsLocked(Do(cfg, s, Rollback(p)), id)
  {
    assert forall q :: Holds(Do(cfg, s, Rollback(p)), q, id) ==> Holds(s, q, id);
  }

  /** In every reachable state, stale marks and lost commits included: a row is running exactly when
      running_since is set, completed rows have completed_at, and a row that is not terminal is either
      claimable once due or reset, and claimable again, by any reset late enough. */
  lemma NeverStranded(cfg: Config, s: State, run: seq<Step>, id: JobId, later: nat)
    requires Init(s) && IsRun(cfg, s, run) && id in Exec(cfg, s, run).rows
    ensures var e := Exec(cfg, s, run);
            var r := e.rows[id];
            var t := Do(cfg, e, Tick(later));
            && (r.status == Running <==> r.runningSince.Some?)
            && (r.status == Completed ==> r.completedAt.Some?)
            && (!Terminal(r) ==>
                 || (Claimable(r) && (t.now >= r.nextRunAt ==> Due(t.rows[id], t.now)))
                 || (r.status == Running && (t.now > r.runningSince.value + cfg.stuckTimeout ==>
                       Due(Do(cfg, t, Reset(t.now)).rows[id], t.now))))
            && (forall p :: Holds(e, p, id) ==> Enabled(cfg, e, Rollback(p)) && !IsLocked(Do(cfg, e, Rollback(p)), id))
  {
    SoundRun(cfg, s, run);
    var e := Exec(cfg, s, run);
    assert RowOk(e.rows[id]);
    forall p | Holds(e, p, id)
      ensures Enabled(cfg, e, Rollback(p)) && !IsLocked(Do(cfg, e, Rollback(p)), id)
    {
      RollbackUnlocks(cfg, e, p, id);
    }
  }
}
