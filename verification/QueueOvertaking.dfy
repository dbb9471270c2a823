/** A retry mark with a stale stamp overtakes a waiting row: an instance, reached from the empty system. */
module QueueOvertaking {
  import opened Domain
  import opened JobTable
  import opened Queue
  import opened QueueSafety
  import opened QueueOwnership
  import opened QueueTiming
  import opened QueueFairness
  import opened QueueScript
  import opened QueueWitness
  import Backoff
  import Executor

  const SECOND: nat := 1_000_000_000

  /** 40 s after its first tick the worker, which read its clock when it started, is about to mark its job;
      a second job has been due for 5 s. */
  function SlowMark(cfg: Config): State {
    var t := cfg.pollInterval;
    State(t + 40 * SECOND,
          map[0 := AsRunning(Job(cfg, t), t), 1 := Job(cfg, t + 35 * SECOND)],
          map[0 := Proc(Polling, 1, false, 2 * t)],
          map[0 := Handle(0, 0, Job(cfg, t), t, Executed(t, Retryable))],
          1)
  }

  function Slow(): Bounds {
    Bounds(40 * SECOND, 0, false)
  }

  /** One job is claimed at the first tick and starts. */
  lemma Started(cfg: Config) returns (run: seq<Step>, t: State, v: Scene)
    requires cfg.concurrency >= 1 && cfg.pollInterval >= 1
    ensures Path(cfg, Slow(), Start(), run, t) && Alone(t) && t.now == cfg.pollInterval
    ensures v == Scene(0, 1, 1, 0, t.now, t.now, t.now) && House(cfg, t, v, Polling, 2 * cfg.pollInterval)
  {
    var b, beat := Slow(), cfg.pollInterval;
    v := Scene(0, 0, 0, 0, 0, 0, beat);
    run, t := ComeUp(cfg, b, beat);
    run, t := Pass(cfg, b, Start(), run, t, v, Polling, beat, beat, 2 * beat);
    OneBeat(cfg, beat, beat);
    run, t, v := LineUp(cfg, b, Start(), run, t, v, beat, 2 * beat, 1, 2 * beat);
    run, t, v := Enter(cfg, b, Start(), run, t, v, beat, 2 * beat, 2 * beat);
  }

  /** The worker executes the only job there is. */
  function AtWork0(cfg: Config, stage: Stage): State {
    var t := cfg.pollInterval;
    State(t, map[0 := AsRunning(Job(cfg, t), t)], map[0 := Proc(Polling, 1, false, 2 * t)],
          map[0 := Handle(0, 0, Job(cfg, t), t, stage)], 1)
  }

  lemma StartedIs(cfg: Config, t: State, v: Scene)
    requires t.now == cfg.pollInterval && Alone(t) && House(cfg, t, v, Polling, 2 * cfg.pollInterval)
    requires v == Scene(0, 1, 1, 0, t.now, t.now, t.now)
    ensures t == AtWork0(cfg, Executing(cfg.pollInterval))
  {
    assert t.live == map[0 := InFlight(cfg, v, 0)];
    assert t.rows == map[0 := RowAs(cfg, v, 0)];
    assert t.procs == map[0 := Proc(Polling, 1, false, 2 * cfg.pollInterval)];
  }

  lemma DoFail0(cfg: Config)
    requires !Executor.NotConfigured(cfg.executor, Done)
    ensures var t := AtWork0(cfg, Executing(cfg.pollInterval));
            && Enabled(cfg, t, Step.Execute(0, NO))
            && Do(cfg, t, Step.Execute(0, NO)) == AtWork0(cfg, Executed(cfg.pollInterval, Retryable))
  {
    assert Executor.OutcomeOf(cfg.executor, Done, NO) == Retryable;
  }

  lemma SlowMarkReached(cfg: Config) returns (run: seq<Step>)
    requires cfg.concurrency >= 1 && cfg.pollInterval >= 1 && !Executor.NotConfigured(cfg.executor, Done)
    ensures Path(cfg, Slow(), Start(), run, SlowMark(cfg))
  {
    var t, v;
    run, t, v := Started(cfg);
    StartedIs(cfg, t, v);
    DoFail0(cfg);
    run, t := Next(cfg, Slow(), Start(), run, t, Step.Execute(0, NO));
    run, t := Next(cfg, Slow(), Start(), run, t, Tick(40 * SECOND));
    run, t := Next(cfg, Slow(), Start(), run, t, Enqueue(1, 0, "K-1", Done, cfg.pollInterval + 35 * SECOND));
  }

  lemma SlowMarkSound(cfg: Config)
    requires cfg.concurrency >= 1
    ensures Sound(cfg, SlowMark(cfg)) && Owned(SlowMark(cfg))
  {
    var s := SlowMark(cfg);
    assert Flying(s, 0) == {0};
    assert HandleOk(s, 0) && BatchOk(cfg, s, 0) && SlotsOk(cfg, s, 0);
  }

  /** With a configured transition and a second attempt allowed: a run from the empty system, and a retry
      mark, on its worker's own row, that puts the job ahead of one that has been due for longer. */
  lemma StaleRetryOvertakes(cfg: Config) returns (run: seq<Step>)
    requires cfg.concurrency >= 1 && cfg.pollInterval >= 1 && cfg.maxAttempts >= 2
    requires !Executor.NotConfigured(cfg.executor, Done)
    ensures IsRun(cfg, Start(), run) && Exec(cfg, Start(), run) == SlowMark(cfg)
    ensures var s, step, due := SlowMark(cfg), Settle(0, cfg.pollInterval, true), cfg.pollInterval + 35 * SECOND;
            && Sound(cfg, s) && Owned(s) && Waits(s, 1, due)
            && Enabled(cfg, s, step) && 1 in Do(cfg, s, step).rows
            && 0 !in Ahead(s, 1) && 0 in Ahead(Do(cfg, s, step), 1)
  {
    run := SlowMarkReached(cfg);
    var s, step := SlowMark(cfg), Settle(0, cfg.pollInterval, true);
    SlowMarkSound(cfg);
    Backoff.BackoffCases(0);
    assert MarkOf(s, step) == Fail(cfg.pollInterval + 30 * SECOND);
    OvertakesExactly(cfg, s, step, 1, cfg.pollInterval + 35 * SECOND, 0);
  }
}
