/** The queue's promises under the timing hypothesis alone, gathered for a reader of the configuration. */
module QueueGuarantees {
  import opened Domain
  import opened JobTable
  import opened Queue
  import opened QueueOwnership
  import opened QueueTiming
  import opened QueueAccounting
  import opened QueueTermination
  import opened QueueJira

  /** If StuckJobTimeout covers one run plus the longest wait, then after any timely run of any number
      of processors, with crashes, lost commits and unapplied marks anywhere: a running row has at most
      one worker; its claims are its attempts, its resets and the current or successful one; attempts
      stay within max(1, MaxAttempts); the work done on it is bounded; and it was moved in Jira at most
      once more than successes were lost. */
  lemma TimelyQueue(cfg: Config, b: Bounds, s: State, run: seq<Step>, id: JobId)
    requires Init(s) && IsRun(cfg, s, run) && TimelyRun(cfg, b, s, run)
    requires cfg.stuckTimeout >= b.T + Delay(cfg, b)
    requires id in Exec(cfg, s, run).rows
    ensures var e := Exec(cfg, s, run);
            var r := e.rows[id];
            var resets := Count(cfg, s, run, ResetOf(cfg, id));
            && (forall h, g :: IsOwner(e, h) && IsOwner(e, g) && e.live[h].job == e.live[g].job ==> h == g)
            && Count(cfg, s, run, ClaimOf(id)) == r.attempts + resets + One(r.status in {Running, Completed})
            && r.attempts <= Budget(r)
            && Work(cfg, s, run, id) <= 2 * Max(1, cfg.maxAttempts) + resets
            && (Configured(cfg, e, id) ==> Count(cfg, s, run, MovedOf(cfg, id)) <= 1 + Count(cfg, s, run, LostOf(id)))
  {
    TimedExclusion(cfg, b, s, run);
    ExclusiveOwnership(cfg, s, run);
    ClaimsAccountedFor(cfg, s, run, id);
    WorkOfOneJob(cfg, s, run, id);
    if Configured(cfg, Exec(cfg, s, run), id) { TransitionsSeen(cfg, s, run, id); }
  }

  /** Under the same hypothesis a row that is completed or dead after some timely run keeps every column
      through every timely continuation. */
  lemma TimelyTerminal(cfg: Config, b: Bounds, s: State, first: seq<Step>, more: seq<Step>, id: JobId)
    requires Init(s) && IsRun(cfg, s, first) && TimelyRun(cfg, b, s, first)
    requires cfg.stuckTimeout >= b.T + Delay(cfg, b)
    requires IsRun(cfg, Exec(cfg, s, first), more) && TimelyRun(cfg, b, Exec(cfg, s, first), more)
    requires id in Exec(cfg, s, first).rows && Terminal(Exec(cfg, s, first).rows[id])
    ensures var e := Exec(cfg, Exec(cfg, s, first), more);
            id in e.rows && e.rows[id] == Exec(cfg, s, first).rows[id]
  {
    TimelyRunIsGentle(cfg, b, s, first);
    TimelyRunIsGentle(cfg, b, Exec(cfg, s, first), more);
    TerminalAbsorbing(cfg, Exec(cfg, s, first), more, id);
  }
}
