/** The repository's statements, when nothing interleaves, are runs of the queue model: the tables the
    contracts of `Worker` promise are the tables those steps produce. */
module WorkerSteps {
  import opened Domain
  import opened JobTable
  import opened Queue
  import opened QueueRuns
  import opened Outcomes
  import Executor

  lemma BeginKeepsLocks(cfg: Config, s: State, p: ProcId, next: int)
    requires Enabled(cfg, s, Begin(p, next))
    ensures Do(cfg, s, Begin(p, next)).rows == s.rows && LockedIds(Do(cfg, s, Begin(p, next))) == LockedIds(s)
  {
    var s1 := Do(cfg, s, Begin(p, next));
    assert forall q, id :: Holds(s1, q, id) <==> Holds(s, q, id);
    assert forall id :: IsLocked(s1, id) <==> IsLocked(s, id);
  }

  lemma SelectThenCommit(cfg: Config, s: State, p: ProcId, ids: seq<JobId>)
    requires Enabled(cfg, s, Select(p, ids)) && ids != []
    ensures Enabled(cfg, Do(cfg, s, Select(p, ids)), Commit(p))
    ensures Do(cfg, Do(cfg, s, Select(p, ids)), Commit(p)).rows == ClaimRows(s.rows, ids, s.procs[p].phase.start)
  {
    assert forall i :: 0 <= i < |ids| ==> ids[i] in ids;
  }

  /** A Dequeue that returns jobs, called on a tick. */
  lemma DequeueIsThreeSteps(cfg: Config, s: State, p: ProcId, next: int, ids: seq<JobId>)
    requires Enabled(cfg, s, Begin(p, next)) && ids != []
    requires IsSelection(s.rows, LockedIds(s), s.now, cfg.concurrency, ids)
    ensures IsRun(cfg, s, [Begin(p, next), Select(p, ids), Commit(p)])
    ensures Exec(cfg, s, [Begin(p, next), Select(p, ids), Commit(p)]).rows == ClaimRows(s.rows, ids, s.now)
  {
    BeginKeepsLocks(cfg, s, p, next);
    SelectThenCommit(cfg, Do(cfg, s, Begin(p, next)), p, ids);
    Three(cfg, s, Begin(p, next), Select(p, ids), Commit(p));
  }

  lemma ExecuteKeepsLocks(cfg: Config, s: State, h: HandleId, ans: Executor.Answers, id: JobId)
    requires h in s.live && s.live[h].stage.Executing?
    ensures IsLocked(Do(cfg, s, Step.Execute(h, ans)), id) <==> IsLocked(s, id)
  {
    var s1 := Do(cfg, s, Step.Execute(h, ans));
    assert forall q :: Holds(s1, q, id) <==> Holds(s, q, id);
  }

  /** A `process` call on a launched job. */
  lemma ProcessIsTwoSteps(cfg: Config, s: State, h: HandleId, ans: Executor.Answers, at: int)
    requires h in s.live && s.live[h].stage.Executing? && s.live[h].stage.startedAt <= at <= s.now
    requires !IsLocked(s, s.live[h].job)
    ensures var outcome := Executor.OutcomeOf(cfg.executor, s.live[h].snap.target, ans);
            && IsRun(cfg, s, [Step.Execute(h, ans), Settle(h, at, true)])
            && Exec(cfg, s, [Step.Execute(h, ans), Settle(h, at, true)]).rows ==
               ApplyMark(s.rows, s.live[h].job, Decide(s.live[h].snap, outcome, at), s.now)
    ensures var id, rows := s.live[h].job, Exec(cfg, s, [Step.Execute(h, ans), Settle(h, at, true)]).rows;
            id in s.rows ==> id in rows && RowAfter(cfg.executor, s.live[h].snap, ans, at, s.now, s.rows[id], rows[id])
  {
    MarkExactly(cfg.executor, s.live[h].snap, ans, at, s.now,
                if s.live[h].job in s.rows then s.rows[s.live[h].job] else s.live[h].snap);
    ExecuteKeepsLocks(cfg, s, h, ans, s.live[h].job);
    Two(cfg, s, Step.Execute(h, ans), Settle(h, at, true));
  }
}
