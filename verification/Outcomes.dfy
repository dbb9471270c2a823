/** What one execution means for the row of its job, from the configuration, Jira's answer and the
    snapshot alone. */
module Outcomes {
  import opened Domain
  import opened JobTable
  import Backoff
  import Executor

  /** Nothing to do, or done. */
  ghost predicate Succeeds(cfg: Executor.Config, target: WorkflowState, ans: Executor.Answers) {
    Executor.NotConfigured(cfg, target) || (Executor.Datable(cfg, target) && ans.transition.Success?)
  }

  /** The transition was sent and refused with 400, 404, 405, 409 or 422. */
  ghost predicate Refused(cfg: Executor.Config, target: WorkflowState, ans: Executor.Answers) {
    !Executor.NotConfigured(cfg, target) && Executor.Datable(cfg, target) && Executor.Hopeless(ans.transition)
  }

  /** Half a minute, doubled with every attempt, up to half an hour; in nanoseconds. */
  function RetryDelay(attempts: nat): int {
    if attempts == 0 then 30_000_000_000
    else if attempts == 1 then 60_000_000_000
    else if attempts == 2 then 120_000_000_000
    else if attempts == 3 then 240_000_000_000
    else if attempts == 4 then 480_000_000_000
    else if attempts == 5 then 960_000_000_000
    else 1_800_000_000_000
  }

  /** No attempt is left, or no attempt can help. */
  ghost predicate GivenUp(cfg: Executor.Config, snap: Row, ans: Executor.Answers) {
    && !Succeeds(cfg, snap.target, ans)
    && (Refused(cfg, snap.target, ans) || snap.attempts + 1 >= snap.maxAttempts)
  }

  /** The row before and after the mark: completed on success; dead at once, whatever the attempts, when
      refused, and dead when they are used up; otherwise failed and due again after the delay. */
  ghost predicate RowAfter(cfg: Executor.Config, snap: Row, ans: Executor.Answers, at: int, now: int, r: Row, r': Row) {
    && r'.eventId == r.eventId && r'.issueKey == r.issueKey && r'.target == r.target
    && r'.maxAttempts == r.maxAttempts && r'.runningSince == None
    && (Succeeds(cfg, snap.target, ans) ==>
          && r'.status == Completed && r'.completedAt == Some(now)
          && r'.attempts == r.attempts && r'.nextRunAt == r.nextRunAt)
    && (!Succeeds(cfg, snap.target, ans) ==> r'.attempts == r.attempts + 1 && r'.completedAt == r.completedAt)
    && (GivenUp(cfg, snap, ans) ==> r'.status == Dead && r'.nextRunAt == r.nextRunAt)
    && (!Succeeds(cfg, snap.target, ans) && !GivenUp(cfg, snap, ans) ==>
          r'.status == Failed && r'.nextRunAt == at + RetryDelay(snap.attempts))
  }

  lemma RetryDelayExactly(attempts: nat)
    ensures Backoff.NextBackoff(attempts) == RetryDelay(attempts)
  {
    Backoff.BackoffCases(attempts);
    Backoff.Pow2Values();
  }

  /** The mark `process` decides on does exactly that. */
  lemma MarkExactly(cfg: Executor.Config, snap: Row, ans: Executor.Answers, at: int, now: int, r: Row)
    ensures var m := Decide(snap, Executor.OutcomeOf(cfg, snap.target, ans), at);
            && RowAfter(cfg, snap, ans, at, now, r, MarkedRow(r, m, now))
            && (m.Complete? <==> Succeeds(cfg, snap.target, ans)) && (m.Die? <==> GivenUp(cfg, snap, ans))
  {
    Executor.OutcomeExactly(cfg, snap.target, ans);
    RetryDelayExactly(snap.attempts);
  }
}
