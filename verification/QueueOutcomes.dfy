/** What the steps of the queue write, column by column, and that a mark carries out what Jira answered to
    its own worker's execution, however many steps lie in between. */
module QueueOutcomes {
  import opened Domain
  import opened Queue
  import opened QueueSafety
  import opened Outcomes
  import Executor

  /** A handle that has its outcome keeps it until its mark, and does not come back. */
  predicate Past(s: State, h: HandleId) {
    h < s.nextHandle && (h in s.live ==> s.live[h].stage.Executed? || s.live[h].stage.Marked?)
  }

  lemma PastStep(cfg: Config, s: State, step: Step, h: HandleId)
    requires HandlesOk(cfg, s) && Enabled(cfg, s, step) && Past(s, h)
    ensures Past(Do(cfg, s, step), h)
    ensures var t := Do(cfg, s, step);
            h in t.live && t.live[h].stage.Executed? ==> h in s.live && t.live[h] == s.live[h]
  {
    if step.Launch? { assert BatchOk(cfg, s, step.p) && HandleOk(s, s.procs[step.p].phase.next); }
    if step.Commit? { PastCommit(cfg, s, step.p, h); } else { PastOther(cfg, s, step, h); }
  }

  lemma PastCommit(cfg: Config, s: State, p: ProcId, h: HandleId)
    requires Enabled(cfg, s, Commit(p)) && h < s.nextHandle
    ensures var t := Do(cfg, s, Commit(p));
            && h < t.nextHandle && (h in t.live <==> h in s.live) && (h in s.live ==> t.live[h] == s.live[h])
  {
  }

  lemma PastOther(cfg: Config, s: State, step: Step, h: HandleId)
    requires Enabled(cfg, s, step) && !step.Commit? && Past(s, h)
    requires step.Launch? ==> s.live[s.procs[step.p].phase.next].stage.Waiting?
    ensures var t := Do(cfg, s, step);
            Past(t, h) && (h in t.live && t.live[h].stage.Executed? ==> h in s.live && t.live[h] == s.live[h])
  {
  }

  lemma {:induction false} PastRun(cfg: Config, s: State, run: seq<Step>, h: HandleId)
    requires Sound(cfg, s) && IsRun(cfg, s, run) && Past(s, h)
    ensures var t := Exec(cfg, s, run);
            h in t.live && t.live[h].stage.Executed? ==> h in s.live && t.live[h] == s.live[h]
    decreases |run|
  {
    if run != [] {
      PastStep(cfg, s, run[0], h);
      SoundStep(cfg, s, run[0]);
      PastRun(cfg, Do(cfg, s, run[0]), run[1..], h);
    }
  }

  /** A worker executes its job and Jira gives these answers; any steps follow; then its mark is applied:
      the row is what the answers to this worker call for. */
  lemma MarkFollowsAnswers(cfg: Config, s: State, h: HandleId, ans: Executor.Answers, mid: seq<Step>, at: int)
    requires Sound(cfg, s) && Enabled(cfg, s, Step.Execute(h, ans)) && IsRun(cfg, Do(cfg, s, Step.Execute(h, ans)), mid)
    requires Enabled(cfg, Exec(cfg, Do(cfg, s, Step.Execute(h, ans)), mid), Settle(h, at, true))
    requires s.live[h].job in Exec(cfg, Do(cfg, s, Step.Execute(h, ans)), mid).rows
    ensures var e, id := Exec(cfg, Do(cfg, s, Step.Execute(h, ans)), mid), s.live[h].job;
            && id in Do(cfg, e, Settle(h, at, true)).rows
            && RowAfter(cfg.executor, s.live[h].snap, ans, at, e.now,
                        e.rows[id], Do(cfg, e, Settle(h, at, true)).rows[id])
  {
    var s1 := Do(cfg, s, Step.Execute(h, ans));
    assert HandleOk(s, h);
    SoundStep(cfg, s, Step.Execute(h, ans));
    PastRun(cfg, s1, mid, h);
    SettledRow(cfg, Exec(cfg, s1, mid), h, ans, at);
  }

  lemma SettledRow(cfg: Config, e: State, h: HandleId, ans: Executor.Answers, at: int)
    requires Enabled(cfg, e, Settle(h, at, true)) && e.live[h].job in e.rows
    requires e.live[h].stage.outcome == Executor.OutcomeOf(cfg.executor, e.live[h].snap.target, ans)
    ensures var t, id := Do(cfg, e, Settle(h, at, true)), e.live[h].job;
            id in t.rows && RowAfter(cfg.executor, e.live[h].snap, ans, at, e.now, e.rows[id], t.rows[id])
  {
    MarkExactly(cfg.executor, e.live[h].snap, ans, at, e.now, e.rows[e.live[h].job]);
  }

  // ----- the other statements -----

  predicate CommitsClaimOf(s: State, step: Step, id: JobId) {
    && (step.Commit? || step.CommitLost?) && step.p in s.procs && s.procs[step.p].phase.Locked?
    && id in s.procs[step.p].phase.ids
  }

  predicate ResetsOld(cfg: Config, s: State, step: Step, id: JobId) {
    && step.Reset? && id in s.rows && s.rows[id].status == Running
    && s.rows[id].runningSince.Some? && s.rows[id].runningSince.value + cfg.stuckTimeout < step.at
  }

  /** A committed claim takes a pending or failed row that was due when it began and sets status and
      running_since; a reset takes a row running since before the cutoff and sets status, next_run_at and
      running_since; a new row is pending with no attempt used; an applied mark is the only other change. */
  lemma ColumnsWritten(cfg: Config, s: State, step: Step, id: JobId)
    requires LocksOk(cfg, s) && Enabled(cfg, s, step)
    ensures var t := Do(cfg, s, step);
            if id in s.rows then
              && id in t.rows
              && (CommitsClaimOf(s, step, id) ==>
                    && (s.rows[id].status == Pending || s.rows[id].status == Failed)
                    && s.rows[id].nextRunAt <= s.procs[step.p].phase.start
                    && t.rows[id] == s.rows[id].(status := Running, runningSince := Some(s.procs[step.p].phase.start)))
              && (ResetsOld(cfg, s, step, id) ==>
                    t.rows[id] == s.rows[id].(status := Pending, nextRunAt := s.now, runningSince := None))
              && (t.rows[id] != s.rows[id] ==>
                    || CommitsClaimOf(s, step, id) || ResetsOld(cfg, s, step, id)
                    || (step.Settle? && step.applied && s.live[step.h].job == id))
            else
              id in t.rows ==>
                && step.Enqueue? && step.id == id
                && t.rows[id] == Row(step.eventId, step.issueKey, step.target, Pending, 0, cfg.maxAttempts,
                                     step.at, None, None)
  {
    if id in s.rows {
      RowChange(cfg, s, step, id);
    } else {
      RowAppears(cfg, s, step, id);
    }
  }

  ghost predicate LimitsSet(cfg: Config, s: State) {
    forall id :: id in s.rows ==> s.rows[id].maxAttempts == cfg.maxAttempts
  }

  lemma LimitsSetStep(cfg: Config, s: State, step: Step)
    requires Sound(cfg, s) && Enabled(cfg, s, step) && LimitsSet(cfg, s)
    ensures LimitsSet(cfg, Do(cfg, s, step))
  {
    forall id | id in Do(cfg, s, step).rows
      ensures Do(cfg, s, step).rows[id].maxAttempts == cfg.maxAttempts
    {
      if id in s.rows { RowChange(cfg, s, step, id); } else { ColumnsWritten(cfg, s, step, id); }
    }
  }

  lemma {:induction false} LimitsSetRun(cfg: Config, s: State, run: seq<Step>)
    requires Sound(cfg, s) && IsRun(cfg, s, run) && LimitsSet(cfg, s)
    ensures LimitsSet(cfg, Exec(cfg, s, run))
    decreases |run|
  {
    if run != [] {
      LimitsSetStep(cfg, s, run[0]);
      SoundStep(cfg, s, run[0]);
      LimitsSetRun(cfg, Do(cfg, s, run[0]), run[1..]);
    }
  }

  /** Every row of every run carries the configured limit. */
  lemma LimitsAreConfigured(cfg: Config, s: State, run: seq<Step>, id: JobId)
    requires Init(s) && IsRun(cfg, s, run) && id in Exec(cfg, s, run).rows
    ensures Exec(cfg, s, run).rows[id].maxAttempts == cfg.maxAttempts
  {
    LimitsSetRun(cfg, s, run);
  }
}
