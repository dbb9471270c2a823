/** The semaphore loop of `Run`: slot bounds, batch discipline, and a drain that loses no job. */
module QueueSlots {
  import opened Domain
  import opened Queue
  import opened QueueSafety
  import opened QueueAccounting
  import opened QueueTiming

  function WaitingOf(s: State, p: ProcId): set<HandleId> {
    set h | h in s.live && s.live[h].proc == p && s.live[h].stage.Waiting?
  }

  function HeldBy(s: State, p: ProcId): set<HandleId> {
    set h | h in s.live && s.live[h].proc == p
  }

  lemma WaitingFew(cfg: Config, s: State, p: ProcId)
    requires Sound(cfg, s) && p in s.procs
    ensures |WaitingOf(s, p)| <= cfg.concurrency
    ensures !s.procs[p].phase.Launching? ==> WaitingOf(s, p) == {}
  {
    assert BatchOk(cfg, s, p);
    forall h | h in WaitingOf(s, p) ensures IsWaiting(s, p, h) { assert HandleOk(s, h); }
    if s.procs[p].phase.Launching? {
      var phase := s.procs[p].phase;
      RangeSize(phase.next, phase.end);
      SubsetSize(WaitingOf(s, p), Range(phase.next, phase.end));
    }
  }

  /** At all times a processor has at most C jobs in flight and holds at most 2C, and when it can call
      Dequeue or start to drain, its previous batch has been launched to the last job. */
  lemma SlotBounds(cfg: Config, s: State, run: seq<Step>, p: ProcId)
    requires Init(s) && IsRun(cfg, s, run) && p in Exec(cfg, s, run).procs
    ensures var e := Exec(cfg, s, run);
            && |Flying(e, p)| <= cfg.concurrency
            && |HeldBy(e, p)| <= 2 * cfg.concurrency
            && (forall next :: Enabled(cfg, e, Begin(p, next)) ==> WaitingOf(e, p) == {})
            && (Enabled(cfg, e, Drain(p)) ==> WaitingOf(e, p) == {})
  {
    SoundRun(cfg, s, run);
    SlotBoundsOf(cfg, Exec(cfg, s, run), p);
  }

  lemma SlotBoundsOf(cfg: Config, e: State, p: ProcId)
    requires Sound(cfg, e) && p in e.procs
    ensures |Flying(e, p)| <= cfg.concurrency
    ensures |HeldBy(e, p)| <= 2 * cfg.concurrency
    ensures !e.procs[p].phase.Launching? ==> WaitingOf(e, p) == {}
  {
    assert SlotsOk(cfg, e, p);
    WaitingFew(cfg, e, p);
    assert HeldBy(e, p) == Flying(e, p) + WaitingOf(e, p);
  }

  // ----- drain -----

  /** A successful Dequeue of p returns the job behind handle h. */
  function BornBy(p: ProcId, h: HandleId): (State, Step) -> bool {
    (s: State, step: Step) =>
      && step.Commit? && step.p == p && p in s.procs && s.procs[p].phase.Locked?
      && InBatch(s.nextHandle, |s.procs[p].phase.ids|, h)
  }

  /** p starts `process` on the job behind h. */
  function LaunchedBy(p: ProcId, h: HandleId): (State, Step) -> bool {
    (s: State, step: Step) =>
      step.Launch? && step.p == p && p in s.procs && s.procs[p].phase.Launching? && s.procs[p].phase.next == h
  }

  /** `process` on the job behind h has returned and its slot is free. */
  function FinishedBy(p: ProcId, h: HandleId): (State, Step) -> bool {
    (s: State, step: Step) => step.Release? && step.h == h && h in s.live && s.live[h].proc == p
  }

  predicate NeverCrashes(run: seq<Step>, p: ProcId) {
    forall i :: 0 <= i < |run| ==> run[i] != Crash(p)
  }

  predicate LaunchSane(s: State, step: Step) {
    step.Launch? && step.p in s.procs && s.procs[step.p].phase.Launching? && s.procs[step.p].phase.next in s.live ==>
      s.live[s.procs[step.p].phase.next].proc == step.p && s.live[s.procs[step.p].phase.next].stage.Waiting?
  }

  lemma WaitingStep(cfg: Config, s: State, step: Step, p: ProcId, h: HandleId)
    requires LaunchSane(s, step) && (h in s.live ==> HandleOk(s, h)) && Enabled(cfg, s, step) && step != Crash(p)
    ensures One(h in WaitingOf(s, p)) + One(BornBy(p, h)(s, step))
            == One(h in WaitingOf(Do(cfg, s, step), p)) + One(LaunchedBy(p, h)(s, step))
  {
  }

  lemma FlyingStep(cfg: Config, s: State, step: Step, p: ProcId, h: HandleId)
    requires LaunchSane(s, step) && (h in s.live ==> HandleOk(s, h)) && Enabled(cfg, s, step) && step != Crash(p)
    ensures One(h in Flying(s, p)) + One(LaunchedBy(p, h)(s, step))
            == One(h in Flying(Do(cfg, s, step), p)) + One(FinishedBy(p, h)(s, step))
  {
  }

  lemma BirthStep(cfg: Config, s: State, step: Step, p: ProcId, h: HandleId)
    requires Enabled(cfg, s, step)
    ensures One(BornBy(p, h)(s, step)) + One(h >= Do(cfg, s, step).nextHandle) <= One(h >= s.nextHandle)
  {
  }

  lemma LifeStep(cfg: Config, s: State, step: Step, p: ProcId, h: HandleId)
    requires HandlesOk(cfg, s) && Enabled(cfg, s, step) && step != Crash(p)
    ensures One(h in WaitingOf(s, p)) + One(BornBy(p, h)(s, step))
            == One(h in WaitingOf(Do(cfg, s, step), p)) + One(LaunchedBy(p, h)(s, step))
    ensures One(h in Flying(s, p)) + One(LaunchedBy(p, h)(s, step))
            == One(h in Flying(Do(cfg, s, step), p)) + One(FinishedBy(p, h)(s, step))
    ensures One(BornBy(p, h)(s, step)) + One(h >= Do(cfg, s, step).nextHandle) <= One(h >= s.nextHandle)
  {
    if h in s.live { assert HandleOk(s, h); }
    if step.Launch? { assert BatchOk(cfg, s, step.p) && HandleOk(s, s.procs[step.p].phase.next); }
    WaitingStep(cfg, s, step, p, h);
    FlyingStep(cfg, s, step, p, h);
    BirthStep(cfg, s, step, p, h);
  }

  lemma {:induction false} LifeRun(cfg: Config, s: State, run: seq<Step>, p: ProcId, h: HandleId)
    requires Sound(cfg, s) && IsRun(cfg, s, run) && NeverCrashes(run, p)
    ensures One(h in WaitingOf(s, p)) + Count(cfg, s, run, BornBy(p, h))
            == One(h in WaitingOf(Exec(cfg, s, run), p)) + Count(cfg, s, run, LaunchedBy(p, h))
    ensures One(h in Flying(s, p)) + Count(cfg, s, run, LaunchedBy(p, h))
            == One(h in Flying(Exec(cfg, s, run), p)) + Count(cfg, s, run, FinishedBy(p, h))
    ensures Count(cfg, s, run, BornBy(p, h)) <= One(h >= s.nextHandle)
    decreases |run|
  {
    if run != [] {
      assert run[0] != Crash(p);
      LifeStep(cfg, s, run[0], p, h);
      SoundStep(cfg, s, run[0]);
      assert NeverCrashes(run[1..], p) by {
        forall i | 0 <= i < |run[1..]| ensures run[1..][i] != Crash(p) { assert run[1..][i] == run[i + 1]; }
      }
      LifeRun(cfg, Do(cfg, s, run[0]), run[1..], p, h);
    }
  }

  /** When `Run` has returned without a crash, every job that any successful Dequeue gave it has had
      `process` called exactly once and finished, wherever cancellation arrived. */
  lemma DrainLosesNothing(cfg: Config, s: State, run: seq<Step>, p: ProcId, h: HandleId)
    requires Init(s) && IsRun(cfg, s, run) && NeverCrashes(run, p)
    requires p in Exec(cfg, s, run).procs && Exec(cfg, s, run).procs[p].phase.Stopped?
    ensures Count(cfg, s, run, BornBy(p, h)) == Count(cfg, s, run, LaunchedBy(p, h))
            == Count(cfg, s, run, FinishedBy(p, h)) <= 1
  {
    SoundRun(cfg, s, run);
    LifeRun(cfg, s, run, p, h);
    var e := Exec(cfg, s, run);
    WaitingFew(cfg, e, p);
    assert BatchOk(cfg, e, p) && SlotsOk(cfg, e, p);
    assert Flying(e, p) == {};
  }
}
