/** How long a failing job lives: the delays between its first failure and its death add up. */
module QueueRetries {
  import opened Domain
  import opened JobTable
  import opened Queue
  import opened QueueSafety
  import opened QueueOwnership
  import opened QueueAccounting
  import Backoff

  /** The row has failed before, first at `first`, and has sat out every delay due so far. */
  predicate Spaced(s: State, id: JobId, first: int) {
    id in s.rows && s.rows[id].attempts >= 1 &&
    var r := s.rows[id];
    var served := first + Backoff.Delays(r.attempts);
    match r.status
    case Pending => served <= r.nextRunAt
    case Failed => served <= r.nextRunAt
    case Running => r.runningSince.Some? && served <= r.runningSince.value <= s.now
    case Dead => first + Backoff.Delays(r.attempts - 1) <= s.now
    case Completed => true
  }

  /** A row claimed when due, marked by the worker that ran it, or reset, stays spaced. */
  lemma SpacedMark(s: State, s': State, id: JobId, first: int, step: Step)
    requires Owned(s) && Spaced(s, id, first) && Marks(s, step, id) && HandleOk(s, step.h)
    requires s.live[step.h].stage.startedAt <= step.at <= s.now == s'.now
    requires id in s'.rows && s'.rows[id] == MarkedRow(s.rows[id], MarkOf(s, step), s.now)
    ensures Spaced(s', id, first)
  {
    MarkHitsOwnRow(s, step, id);
    var a := s.rows[id].attempts;
    assert Backoff.Delays(a + 1) == Backoff.Delays(a) + Backoff.NextBackoff(a);
  }

  lemma SpacedStep(cfg: Config, s: State, step: Step, id: JobId, first: int)
    requires Sound(cfg, s) && Owned(s) && Enabled(cfg, s, step) && Spaced(s, id, first)
    ensures Spaced(Do(cfg, s, step), id, first)
  {
    RowChange(cfg, s, step, id);
    if Marks(s, step, id) {
      assert HandleOk(s, step.h);
      SpacedMark(s, Do(cfg, s, step), id, first, step);
    } else {
      if Claims(s, step, id) { assert BatchOk(cfg, s, step.p); }
      SpacedOther(cfg, s, step, id, first);
    }
  }

  lemma SpacedOther(cfg: Config, s: State, step: Step, id: JobId, first: int)
    requires LocksOk(cfg, s) && Enabled(cfg, s, step) && Spaced(s, id, first) && !Marks(s, step, id)
    requires Claims(s, step, id) ==> s.procs[step.p].phase.start <= s.now
    ensures Spaced(Do(cfg, s, step), id, first)
  {
    RowChange(cfg, s, step, id);
    assert s.now <= Do(cfg, s, step).now;
  }

  lemma {:induction false} SpacedRun(cfg: Config, s: State, run: seq<Step>, id: JobId, first: int)
    requires Sound(cfg, s) && Owned(s) && Spaced(s, id, first) && IsRun(cfg, s, run) && GentleRun(cfg, s, run)
    ensures Spaced(Exec(cfg, s, run), id, first)
    decreases |run|
  {
    if run != [] {
      SpacedStep(cfg, s, run[0], id, first);
      SoundStep(cfg, s, run[0]);
      OwnedStep(cfg, s, run[0]);
      SpacedRun(cfg, Do(cfg, s, run[0]), run[1..], id, first);
    }
  }

  lemma FirstFailure(cfg: Config, s: State, failure: Step, id: JobId)
    requires LocksOk(cfg, s) && Owned(s) && Enabled(cfg, s, failure)
    requires Marks(s, failure, id) && MarkOf(s, failure).Fail? && id in s.rows && s.rows[id].attempts == 0
    ensures Spaced(Do(cfg, s, failure), id, failure.at)
  {
    RowChange(cfg, s, failure, id);
    MarkHitsOwnRow(s, failure, id);
    assert Backoff.Delays(1) == Backoff.Delays(0) + Backoff.NextBackoff(0);
  }

  predicate IsDead(e: State, id: JobId) {
    id in e.rows && e.rows[id].status == Dead
  }

  /** The clock is past `first` by the first m-1 delays, m being the attempts used: 30*(2^(m-1)-1)
      seconds up to seven attempts, 1890 + 1800*(m-7) seconds from there on. */
  predicate SatOutDelays(e: State, id: JobId, first: int)
    requires id in e.rows
  {
    var m := e.rows[id].attempts;
    && m >= 1
    && e.now - first >= Backoff.Delays(m - 1)
    && (m <= 7 ==> e.now - first >= Backoff.Times30s(Backoff.Pow2(m - 1) - 1))
    && (m >= 7 ==> e.now - first >= 1_890_000_000_000 + (m - 7) * 1_800_000_000_000)
  }

  /** With no live job reset, a job found dead after m attempts is at least the first m-1 delays past
      its first failure, whatever claims, crashes and resets came in between. */
  lemma DeathTakesAllDelays(cfg: Config, s: State, failure: Step, run: seq<Step>, id: JobId)
    requires Sound(cfg, s) && Owned(s) && Enabled(cfg, s, failure)
    requires Marks(s, failure, id) && MarkOf(s, failure).Fail? && id in s.rows && s.rows[id].attempts == 0
    requires IsRun(cfg, Do(cfg, s, failure), run) && GentleRun(cfg, Do(cfg, s, failure), run)
    requires IsDead(Exec(cfg, Do(cfg, s, failure), run), id)
    ensures SatOutDelays(Exec(cfg, Do(cfg, s, failure), run), id, failure.at)
  {
    var s1 := Do(cfg, s, failure);
    FirstFailure(cfg, s, failure, id);
    SoundStep(cfg, s, failure);
    OwnedStep(cfg, s, failure);
    SpacedRun(cfg, s1, run, id, failure.at);
    DelaysAtDeath(Exec(cfg, s1, run), id, failure.at);
  }

  lemma DelaysAtDeath(e: State, id: JobId, first: int)
    requires Spaced(e, id, first) && IsDead(e, id)
    ensures SatOutDelays(e, id, first)
  {
    Backoff.DelaysClosedForm(e.rows[id].attempts);
  }

  /** A job that dies on a retryable error has used exactly max(1, MaxAttempts) attempts; one that is
      told to retry still has some left. */
  lemma ExhaustedMeansAllAttempts(cfg: Config, s: State, step: Step, id: JobId)
    requires LocksOk(cfg, s) && Owned(s) && AttemptsOk(s) && Enabled(cfg, s, step)
    requires Marks(s, step, id) && s.live[step.h].stage.outcome.Retryable?
    ensures id in s.rows && id in Do(cfg, s, step).rows
    ensures var r := Do(cfg, s, step).rows[id];
            && (r.status == Dead <==> r.attempts == Budget(r))
            && (r.status == Failed <==> r.attempts < Budget(r))
            && r.attempts == s.rows[id].attempts + 1
  {
    MarkHitsOwnRow(s, step, id);
    RowChange(cfg, s, step, id);
    assert WithinBudget(s.rows[id]);
  }
}
