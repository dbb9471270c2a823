/**
 The timing argument between the loop of `Run`, its slots and its poll ticker, and StuckJobTimeout.
 Bounds are assumed on one `process` call from slot to slot (T), on one claim from begin to
 acknowledgement (L), and that a free slot is taken at once; then no worker is still busy when its row
 counts as stuck. If the loop takes its ticks at once too, a PollInterval of at least T lowers the bound.
 */
module QueueTiming {
  import opened Domain
  import opened JobTable
  import opened Queue
  import opened QueueSafety
  import opened QueueOwnership

  /** How long a worker may run (T), how long a claim transaction may stay open (L), and whether the
      loop of `Run` takes a tick at once. */
  datatype Bounds = Bounds(T: nat, L: nat, prompt: bool)

  /** The longest a claimed job waits for its slot, whatever the polls. */
  function Wait(b: Bounds): (w: nat)
    ensures w >= b.T && w >= b.L && (w == b.T || w == b.L)
  {
    Max(b.T, b.L)
  }

  /** Prompt polls at least T apart never have two batches queueing for the slots. */
  predicate Spaced(cfg: Config, b: Bounds) {
    b.prompt && b.T <= cfg.pollInterval
  }

  /** The longest a claimed job waits for its slot. */
  function Delay(cfg: Config, b: Bounds): (delay: nat)
    ensures delay <= Wait(b)
  {
    if Spaced(cfg, b) then b.L else Wait(b)
  }

  predicate Open(phase: Phase) {
    phase.Begun? || phase.Locked?
  }

  predicate HasWaiting(phase: Phase) {
    phase.Launching? && phase.next < phase.end
  }

  /** No tick waits at an idle loop, and no loop stands behind a finished batch. */
  ghost predicate Prompt(s: State, delta: nat) {
    forall p :: p in s.procs ==>
      && (s.procs[p].phase.Polling? ==> s.now + delta <= s.procs[p].due)
      && (s.procs[p].phase.Launching? ==> HasWaiting(s.procs[p].phase))
  }

  /** Time may pass only if nobody exceeds a bound and no free slot is left beside a waiting job. */
  ghost predicate Timely(cfg: Config, b: Bounds, s: State, step: Step) {
    step.Tick? && step.delta > 0 ==>
      && (forall p :: p in s.procs ==>
            && (Open(s.procs[p].phase) ==> s.now + step.delta <= s.procs[p].phase.start + b.L)
            && (HasWaiting(s.procs[p].phase) ==> s.procs[p].slots == cfg.concurrency))
      && (forall h :: h in s.live && !s.live[h].stage.Waiting? ==>
            s.now + step.delta <= s.live[h].stage.startedAt + b.T)
      && (b.prompt ==> Prompt(s, step.delta))
  }

  ghost predicate TimelyRun(cfg: Config, b: Bounds, s: State, run: seq<Step>)
    requires IsRun(cfg, s, run)
    decreases |run|
  {
    run == [] || (Timely(cfg, b, s, run[0]) && TimelyRun(cfg, b, Do(cfg, s, run[0]), run[1..]))
  }

  ghost predicate HandleInTime(b: Bounds, s: State, h: HandleId)
    requires h in s.live
  {
    var l := s.live[h];
    !l.stage.Waiting? ==> s.now <= l.stage.startedAt + b.T && l.stage.startedAt <= l.claimedAt + Wait(b)
  }

  ghost predicate ProcInTime(b: Bounds, s: State, p: ProcId)
    requires p in s.procs
  {
    var phase := s.procs[p].phase;
    && (Open(phase) ==> s.now <= phase.start + b.L)
    && (HasWaiting(phase) ==> s.now <= phase.start + Wait(b))
  }

  ghost predicate InTime(b: Bounds, s: State) {
    && (forall h :: h in s.live ==> HandleInTime(b, s, h))
    && (forall p :: p in s.procs ==> ProcInTime(b, s, p))
  }

  function Range(lo: nat, hi: nat): (r: set<nat>)
    requires lo <= hi
    ensures forall i :: i in r <==> lo <= i < hi
    decreases hi - lo
  {
    if lo == hi then {} else Range(lo, hi - 1) + {hi - 1}
  }

  lemma {:induction false} RangeSize(lo: nat, hi: nat)
    requires lo <= hi
    ensures |Range(lo, hi)| == hi - lo
    decreases hi - lo
  {
    if lo < hi {
      RangeSize(lo, hi - 1);
    }
  }

  /** Pigeonhole: while part of a batch waits on full slots, some job in flight predates the batch. */
  lemma OlderJobInFlight(cfg: Config, s: State, p: ProcId) returns (h: HandleId)
    requires Sound(cfg, s) && p in s.procs && HasWaiting(s.procs[p].phase) && s.procs[p].slots == cfg.concurrency
    ensures h in Flying(s, p) && h < s.procs[p].phase.first
    ensures s.live[h].stage.startedAt <= s.procs[p].phase.start
  {
    var phase := s.procs[p].phase;
    assert BatchOk(cfg, s, p) && SlotsOk(cfg, s, p);
    if forall g :: g in Flying(s, p) ==> phase.first <= g {
      forall g | g in Flying(s, p) ensures g in Range(phase.first, phase.next) {
        assert HandleOk(s, g);
      }
      SubsetSize(Flying(s, p), Range(phase.first, phase.next));
      RangeSize(phase.first, phase.next);
      assert false;
    }
    h :| h in Flying(s, p) && h < phase.first;
    assert HandleOk(s, h);
  }

  lemma ProcInTimeTick(cfg: Config, b: Bounds, s: State, step: Step, p: ProcId)
    requires Sound(cfg, s) && InTime(b, s) && Timely(cfg, b, s, step) && step.Tick? && p in s.procs
    ensures ProcInTime(b, Do(cfg, s, step), p)
  {
    assert ProcInTime(b, s, p);
    if HasWaiting(s.procs[p].phase) && step.delta > 0 {
      var h := OlderJobInFlight(cfg, s, p);
    }
  }

  lemma ProcInTimeStep(cfg: Config, b: Bounds, s: State, step: Step, p: ProcId)
    requires Enabled(cfg, s, step) && !step.Tick? && p in Do(cfg, s, step).procs
    requires p in s.procs ==> ProcInTime(b, s, p)
    ensures ProcInTime(b, Do(cfg, s, step), p)
  {
  }

  lemma HandleInTimeLaunch(cfg: Config, b: Bounds, s: State, p: ProcId, h: HandleId)
    requires Enabled(cfg, s, Launch(p)) && BatchOk(cfg, s, p) && ProcInTime(b, s, p)
    requires HandleOk(s, s.procs[p].phase.next)
    requires h in s.live && HandleInTime(b, s, h)
    ensures h in Do(cfg, s, Launch(p)).live && HandleInTime(b, Do(cfg, s, Launch(p)), h)
  {
  }

  lemma HandleInTimeOther(cfg: Config, b: Bounds, s: State, step: Step, h: HandleId)
    requires Enabled(cfg, s, step) && Timely(cfg, b, s, step) && !step.Launch?
    requires h in s.live ==> HandleInTime(b, s, h) && h < s.nextHandle
    requires h in Do(cfg, s, step).live
    ensures HandleInTime(b, Do(cfg, s, step), h)
  {
  }

  lemma HandleInTimeStep(cfg: Config, b: Bounds, s: State, step: Step, h: HandleId)
    requires HandlesOk(cfg, s) && InTime(b, s) && Enabled(cfg, s, step) && Timely(cfg, b, s, step)
    requires h in Do(cfg, s, step).live
    ensures HandleInTime(b, Do(cfg, s, step), h)
  {
    if h in s.live { assert HandleInTime(b, s, h) && HandleOk(s, h); }
    if step.Launch? {
      assert ProcInTime(b, s, step.p) && BatchOk(cfg, s, step.p) && HandleOk(s, s.procs[step.p].phase.next);
      HandleInTimeLaunch(cfg, b, s, step.p, h);
    } else {
      HandleInTimeOther(cfg, b, s, step, h);
    }
  }

  lemma InTimeStep(cfg: Config, b: Bounds, s: State, step: Step)
    requires Sound(cfg, s) && InTime(b, s) && Enabled(cfg, s, step) && Timely(cfg, b, s, step)
    ensures InTime(b, Do(cfg, s, step))
  {
    var s' := Do(cfg, s, step);
    forall h | h in s'.live ensures HandleInTime(b, s', h) { HandleInTimeStep(cfg, b, s, step, h); }
    forall p | p in s'.procs ensures ProcInTime(b, s', p) {
      if step.Tick? { ProcInTimeTick(cfg, b, s, step, p); } else { ProcInTimeStep(cfg, b, s, step, p); }
    }
  }

  /** A job somebody still holds was claimed no longer ago than its wait for a slot and one run. */
  lemma HeldJobIsRecent(cfg: Config, b: Bounds, s: State, h: HandleId)
    requires Sound(cfg, s) && InTime(b, s) && h in s.live
    ensures s.now <= s.live[h].claimedAt + Wait(b) + b.T
  {
    assert HandleOk(s, h) && HandleInTime(b, s, h);
    assert BatchOk(cfg, s, s.live[h].proc) && ProcInTime(b, s, s.live[h].proc);
  }

  // ----- when prompt polls are at least T apart -----

  /** The case in which that makes a difference. */
  predicate Rare(cfg: Config, b: Bounds) {
    Spaced(cfg, b) && b.L < b.T
  }

  /** Jobs start within L, and the batch before this one was claimed a poll interval earlier. */
  ghost predicate HandleOnPace(cfg: Config, b: Bounds, s: State, h: HandleId)
    requires h in s.live && s.live[h].proc in s.procs
  {
    var l := s.live[h];
    var proc := s.procs[l.proc];
    && (!l.stage.Waiting? ==> s.now <= l.stage.startedAt + b.T && l.stage.startedAt <= l.claimedAt + b.L)
    && (proc.phase.Polling? ==> l.claimedAt + cfg.pollInterval <= proc.due)
    && (Open(proc.phase) ==> l.claimedAt + cfg.pollInterval <= proc.phase.start)
    && (proc.phase.Launching? && h < proc.phase.first ==> l.claimedAt + cfg.pollInterval <= proc.phase.start)
  }

  /** A batch is launched before the next tick, which is therefore taken on the beat. */
  ghost predicate ProcOnPace(cfg: Config, b: Bounds, s: State, p: ProcId)
    requires p in s.procs
  {
    var proc := s.procs[p];
    && (proc.phase.Polling? ==> s.now <= proc.due)
    && (Open(proc.phase) || proc.phase.Launching? ==>
          s.now <= proc.phase.start + b.L && proc.due == proc.phase.start + cfg.pollInterval)
  }

  ghost predicate OnPace(cfg: Config, b: Bounds, s: State) {
    && (forall h :: h in s.live ==> s.live[h].proc in s.procs && HandleOnPace(cfg, b, s, h))
    && (forall p :: p in s.procs ==> ProcOnPace(cfg, b, s, p))
  }

  /** While a batch waits on full slots, an older job runs that ends by the claim's bound. */
  lemma ProcOnPaceTick(cfg: Config, b: Bounds, s: State, step: Step, p: ProcId)
    requires Rare(cfg, b) && Sound(cfg, s) && OnPace(cfg, b, s) && p in s.procs
    requires step.Tick? && Timely(cfg, b, s, step)
    ensures ProcOnPace(cfg, b, Do(cfg, s, step), p)
  {
    assert ProcOnPace(cfg, b, s, p);
    if s.procs[p].phase.Launching? && step.delta > 0 {
      var h := OlderJobInFlight(cfg, s, p);
      assert HandleOnPace(cfg, b, s, h);
    }
  }

  lemma OnTheBeat(cfg: Config, due: int, next: int)
    requires NextTick(cfg, due, due, next)
    ensures next == due + cfg.pollInterval
  {
    assert OnGrid(due + cfg.pollInterval, next, cfg.pollInterval);
  }

  lemma ProcOnPaceBegin(cfg: Config, b: Bounds, s: State, step: Step)
    requires step.Begin? && Enabled(cfg, s, step) && ProcOnPace(cfg, b, s, step.p)
    ensures s.now == s.procs[step.p].due && ProcOnPace(cfg, b, Do(cfg, s, step), step.p)
  {
    OnTheBeat(cfg, s.now, step.next);
  }

  lemma ProcOnPaceStep(cfg: Config, b: Bounds, s: State, step: Step, p: ProcId)
    requires Rare(cfg, b) && Enabled(cfg, s, step) && !step.Tick? && p in Do(cfg, s, step).procs
    requires p in s.procs ==> ProcOnPace(cfg, b, s, p)
    ensures ProcOnPace(cfg, b, Do(cfg, s, step), p)
  {
    if step.Begin? && step.p == p { ProcOnPaceBegin(cfg, b, s, step); } else { ProcOnPaceOther(cfg, b, s, step, p); }
  }

  lemma ProcOnPaceOther(cfg: Config, b: Bounds, s: State, step: Step, p: ProcId)
    requires Rare(cfg, b) && Enabled(cfg, s, step) && !step.Tick? && p in Do(cfg, s, step).procs
    requires !(step.Begin? && step.p == p)
    requires p in s.procs ==> ProcOnPace(cfg, b, s, p)
    ensures ProcOnPace(cfg, b, Do(cfg, s, step), p)
  {
  }

  lemma HandleOnPaceTick(cfg: Config, b: Bounds, s: State, step: Step, h: HandleId)
    requires step.Tick? && Timely(cfg, b, s, step)
    requires h in s.live && s.live[h].proc in s.procs && HandleOnPace(cfg, b, s, h)
    ensures HandleOnPace(cfg, b, Do(cfg, s, step), h)
  {
  }

  lemma HandleOnPaceNew(cfg: Config, b: Bounds, s: State, p: ProcId, h: HandleId)
    requires HandlesOk(cfg, s) && Enabled(cfg, s, Commit(p)) && h !in s.live && h in Do(cfg, s, Commit(p)).live
    ensures Do(cfg, s, Commit(p)).live[h].proc == p && HandleOnPace(cfg, b, Do(cfg, s, Commit(p)), h)
  {
  }

  lemma HandleOnPacePhaseStep(cfg: Config, b: Bounds, s: State, step: Step, h: HandleId)
    requires Rare(cfg, b) && ChangesPhaseOnly(step) && Enabled(cfg, s, step)
    requires h in s.live && HandleOk(s, h) && HandleOnPace(cfg, b, s, h) && ProcOnPace(cfg, b, s, step.p)
    ensures h in Do(cfg, s, step).live && HandleOnPace(cfg, b, Do(cfg, s, step), h)
  {
  }

  lemma HandleOnPaceCommit(cfg: Config, b: Bounds, s: State, p: ProcId, h: HandleId)
    requires Enabled(cfg, s, Commit(p)) && h in s.live && HandleOk(s, h) && HandleOnPace(cfg, b, s, h)
    ensures h in Do(cfg, s, Commit(p)).live && HandleOnPace(cfg, b, Do(cfg, s, Commit(p)), h)
  {
  }

  lemma HandleOnPaceLaunch(cfg: Config, b: Bounds, s: State, p: ProcId, h: HandleId)
    requires Rare(cfg, b) && Enabled(cfg, s, Launch(p)) && BatchOk(cfg, s, p) && ProcOnPace(cfg, b, s, p)
    requires HandleOk(s, s.procs[p].phase.next)
    requires h in s.live && HandleOk(s, h) && HandleOnPace(cfg, b, s, h)
    ensures h in Do(cfg, s, Launch(p)).live && HandleOnPace(cfg, b, Do(cfg, s, Launch(p)), h)
  {
  }

  lemma HandleOnPaceOther(cfg: Config, b: Bounds, s: State, step: Step, h: HandleId)
    requires !ChangesPhaseOnly(step) && !step.Tick? && !step.Commit? && !step.Launch? && Enabled(cfg, s, step)
    requires h in s.live && HandleOk(s, h) && HandleOnPace(cfg, b, s, h) && h in Do(cfg, s, step).live
    ensures var t := Do(cfg, s, step);
            t.live[h].proc in t.procs && HandleOnPace(cfg, b, t, h)
  {
  }

  lemma HandleOnPaceStep(cfg: Config, b: Bounds, s: State, step: Step, h: HandleId)
    requires Rare(cfg, b) && HandlesOk(cfg, s) && OnPace(cfg, b, s) && Enabled(cfg, s, step) && !step.Tick?
    requires h in s.live && h in Do(cfg, s, step).live
    ensures var t := Do(cfg, s, step);
            t.live[h].proc in t.procs && HandleOnPace(cfg, b, t, h)
  {
    assert HandleOk(s, h) && HandleOnPace(cfg, b, s, h);
    if step.Commit? {
      HandleOnPaceCommit(cfg, b, s, step.p, h);
    } else if step.Launch? {
      assert BatchOk(cfg, s, step.p) && ProcOnPace(cfg, b, s, step.p) && HandleOk(s, s.procs[step.p].phase.next);
      HandleOnPaceLaunch(cfg, b, s, step.p, h);
    } else if ChangesPhaseOnly(step) {
      assert ProcOnPace(cfg, b, s, step.p);
      HandleOnPacePhaseStep(cfg, b, s, step, h);
    } else {
      HandleOnPaceOther(cfg, b, s, step, h);
    }
  }

  lemma OnPaceStep(cfg: Config, b: Bounds, s: State, step: Step)
    requires Rare(cfg, b) && Sound(cfg, s) && OnPace(cfg, b, s)
    requires Enabled(cfg, s, step) && Timely(cfg, b, s, step)
    ensures OnPace(cfg, b, Do(cfg, s, step))
  {
    var t := Do(cfg, s, step);
    forall p | p in t.procs
      ensures ProcOnPace(cfg, b, t, p)
    {
      if step.Tick? { ProcOnPaceTick(cfg, b, s, step, p); } else { ProcOnPaceStep(cfg, b, s, step, p); }
    }
    forall h | h in t.live
      ensures t.live[h].proc in t.procs && HandleOnPace(cfg, b, t, h)
    {
      if step.Tick? {
        HandleOnPaceTick(cfg, b, s, step, h);
      } else if h in s.live {
        HandleOnPaceStep(cfg, b, s, step, h);
      } else {
        OnlyCommitAdds(cfg, s, step, h);
        HandleOnPaceNew(cfg, b, s, step.p, h);
      }
    }
  }

  /** A job somebody still holds was then claimed no longer ago than one claim and one run. */
  lemma HeldJobOnPace(cfg: Config, b: Bounds, s: State, h: HandleId)
    requires Sound(cfg, s) && OnPace(cfg, b, s) && h in s.live
    ensures s.now <= s.live[h].claimedAt + b.T + b.L
  {
    assert HandleOk(s, h) && HandleOnPace(cfg, b, s, h);
    assert ProcOnPace(cfg, b, s, s.live[h].proc);
  }

  // ----- resets -----

  /** What a well-timed run keeps. */
  ghost predicate Steady(cfg: Config, b: Bounds, s: State) {
    InTime(b, s) && (Rare(cfg, b) ==> OnPace(cfg, b, s))
  }

  lemma SteadyStep(cfg: Config, b: Bounds, s: State, step: Step)
    requires Sound(cfg, s) && Steady(cfg, b, s) && Enabled(cfg, s, step)
    requires Timely(cfg, b, s, step)
    ensures Steady(cfg, b, Do(cfg, s, step))
  {
    InTimeStep(cfg, b, s, step);
    if Rare(cfg, b) { OnPaceStep(cfg, b, s, step); }
  }

  lemma HeldJobInTime(cfg: Config, b: Bounds, s: State, h: HandleId)
    requires Sound(cfg, s) && Steady(cfg, b, s) && h in s.live
    ensures s.now <= s.live[h].claimedAt + b.T + Delay(cfg, b)
  {
    if Rare(cfg, b) { HeldJobOnPace(cfg, b, s, h); } else { HeldJobIsRecent(cfg, b, s, h); }
  }

  lemma TimelyResetIsGentle(cfg: Config, b: Bounds, s: State, step: Step)
    requires Sound(cfg, s) && Owned(s) && Steady(cfg, b, s) && Enabled(cfg, s, step)
    requires cfg.stuckTimeout >= b.T + Delay(cfg, b)
    ensures Gentle(cfg, s, step)
  {
    if step.Reset? {
      forall h | h in s.live && Owning(s.live[h]) && s.live[h].job in s.rows
        ensures !Stuck(s.rows[s.live[h].job], step.at - cfg.stuckTimeout)
      {
        assert IsOwner(s, h) && OwnsRow(s, h);
        HeldJobInTime(cfg, b, s, h);
      }
    }
  }

  lemma {:induction false} TimelyRunIsGentle(cfg: Config, b: Bounds, s: State, run: seq<Step>)
    requires Sound(cfg, s) && Owned(s) && Steady(cfg, b, s)
    requires IsRun(cfg, s, run) && TimelyRun(cfg, b, s, run)
    requires cfg.stuckTimeout >= b.T + Delay(cfg, b)
    ensures GentleRun(cfg, s, run)
    ensures var e := Exec(cfg, s, run);
            Sound(cfg, e) && Owned(e) && Steady(cfg, b, e)
    decreases |run|
  {
    if run != [] {
      TimelyResetIsGentle(cfg, b, s, run[0]);
      SoundStep(cfg, s, run[0]);
      OwnedStep(cfg, s, run[0]);
      SteadyStep(cfg, b, s, run[0]);
      TimelyRunIsGentle(cfg, b, Do(cfg, s, run[0]), run[1..]);
    }
  }

  /** Timed exclusion. From an empty system, if StuckJobTimeout is at least one run plus the longest
      wait (2T when claims take no time, T with prompt polls at least T apart), no reset ever reaches a
      job a worker still holds, and every claimed job is let go within that span of its running_since. */
  lemma TimedExclusion(cfg: Config, b: Bounds, s: State, run: seq<Step>)
    requires Init(s) && IsRun(cfg, s, run) && TimelyRun(cfg, b, s, run)
    requires cfg.stuckTimeout >= b.T + Delay(cfg, b)
    ensures GentleRun(cfg, s, run)
    ensures var e := Exec(cfg, s, run);
            forall h :: IsOwner(e, h) ==>
              var l := e.live[h];
              && l.job in e.rows && e.rows[l.job].runningSince == Some(l.claimedAt)
              && e.now <= l.claimedAt + b.T + Delay(cfg, b)
  {
    TimelyRunIsGentle(cfg, b, s, run);
    var e := Exec(cfg, s, run);
    forall h | IsOwner(e, h)
      ensures e.now <= e.live[h].claimedAt + b.T + Delay(cfg, b)
    {
      HeldJobInTime(cfg, b, e, h);
    }
  }
}
