/**
 The job queue as a transition system: one clock, the jobs table, any number of processors with
 their claim transactions and slots, and the handles their workers hold on claimed jobs. Every
 source of nondeterminism (timing, crashes, lost acknowledgements, Jira's answers, which of
 several equally early rows a SELECT returns) is a parameter of a step.
 */
module Queue {
  import opened Domain
  import opened JobTable
  import Executor

  datatype Config = Config(
    concurrency: nat,
    pollInterval: int,
    stuckTimeout: int,
    maxAttempts: int,
    executor: Executor.Config)

  type ProcId = nat
  type HandleId = nat

  /** Where a worker is with the job it was given: not launched yet, inside Execute, between Execute
      and the mark, or past the mark but still holding its slot. */
  datatype Stage =
    | Waiting
    | Executing(startedAt: int)
    | Executed(startedAt: int, outcome: Outcome)
    | Marked(startedAt: int)

  /** A job as returned by one Dequeue: a copy of the row as selected. */
  datatype Handle = Handle(proc: ProcId, job: JobId, snap: Row, claimedAt: int, stage: Stage)

  /** The control state of `Run`. A claim transaction's now() is its start time. In Launching, the
      batch is the handles first..end and the range loop has reached `next`. */
  datatype Phase =
    | Polling
    | Begun(start: int)
    | Locked(start: int, ids: seq<JobId>, snaps: map<JobId, Row>)
    | Launching(start: int, first: HandleId, next: HandleId, end: HandleId)
    | Draining
    | Stopped

  /** `due` is the first instant of the poll ticker that `Run` has neither received nor missed: its
      channel holds a tick exactly when that instant has come. */
  datatype Proc = Proc(phase: Phase, slots: nat, cancelled: bool, due: int)

  datatype State = State(
    now: int,
    rows: Rows,
    procs: map<ProcId, Proc>,
    live: map<HandleId, Handle>,
    nextHandle: HandleId)

  datatype Step =
    | Tick(delta: nat)
    | Enqueue(id: JobId, eventId: EventId, issueKey: string, target: WorkflowState, at: int)
    | StartProc(p: ProcId)
    | Begin(p: ProcId, next: int)
    | Select(p: ProcId, ids: seq<JobId>)
    | Rollback(p: ProcId)
    | Commit(p: ProcId)
    | CommitLost(p: ProcId)              // applied, but Dequeue reports an error
    | Launch(p: ProcId)
    | EndBatch(p: ProcId)
    | Execute(h: HandleId, answers: Executor.Answers)
    | Settle(h: HandleId, at: int, applied: bool)
    | Release(h: HandleId)
    | Cancel(p: ProcId)
    | Drain(p: ProcId)
    | Stop(p: ProcId)
    | Crash(p: ProcId)
    | Reset(at: int)

  ghost predicate Init(s: State) {
    s.rows == map[] && s.procs == map[] && s.live == map[]
  }

  predicate Holds(s: State, p: ProcId, id: JobId) {
    p in s.procs && s.procs[p].phase.Locked? && id in s.procs[p].phase.ids
  }

  ghost predicate IsLocked(s: State, id: JobId) {
    exists p :: Holds(s, p, id)
  }

  ghost function LockedIds(s: State): set<JobId> {
    set id | id in s.rows && IsLocked(s, id)
  }

  // ----- the poll ticker -----

  /** A whole number of intervals later, or the same instant. */
  predicate OnGrid(t: int, later: int, interval: int)
    requires interval >= 1
    decreases later - t
  {
    later == t || (later > t && OnGrid(t + interval, later, interval))
  }

  /** The ticker keeps its beat, and its channel holds one tick: those that came while it was full are
      dropped. At the very instant of a beat, that tick may come before or after the older one is taken. */
  predicate NextTick(cfg: Config, due: int, now: int, next: int) {
    && cfg.pollInterval >= 1
    && due < next && now <= next <= now + cfg.pollInterval
    && OnGrid(due, next, cfg.pollInterval)
  }

  ghost predicate Enabled(cfg: Config, s: State, step: Step) {
    match step
    case Tick(_) => true
    case Enqueue(id, _, _, _, at) => id !in s.rows && at <= s.now
    case StartProc(p) => p !in s.procs && cfg.pollInterval >= 1
    case Begin(p, next) =>
      && p in s.procs && s.procs[p].phase.Polling? && s.procs[p].due <= s.now
      && NextTick(cfg, s.procs[p].due, s.now, next)
    case Select(p, ids) =>
      && p in s.procs && s.procs[p].phase.Begun?
      && IsSelection(s.rows, LockedIds(s), s.procs[p].phase.start, cfg.concurrency, ids)
    case Rollback(p) => p in s.procs && (s.procs[p].phase.Begun? || s.procs[p].phase.Locked?)
    case Commit(p) => p in s.procs && s.procs[p].phase.Locked? && s.procs[p].phase.ids != [] && IdsKnown(s, p)
    case CommitLost(p) => p in s.procs && s.procs[p].phase.Locked? && s.procs[p].phase.ids != [] && IdsKnown(s, p)
    case Launch(p) =>
      && p in s.procs && s.procs[p].phase.Launching?
      && s.procs[p].phase.next < s.procs[p].phase.end
      && s.procs[p].phase.next in s.live
      && s.procs[p].slots < cfg.concurrency
    case EndBatch(p) => p in s.procs && s.procs[p].phase.Launching? && s.procs[p].phase.next == s.procs[p].phase.end
    case Execute(h, _) => h in s.live && s.live[h].stage.Executing?
    case Settle(h, at, applied) =>
      && h in s.live && s.live[h].stage.Executed?
      && s.live[h].stage.startedAt <= at <= s.now
      && (applied ==> !IsLocked(s, s.live[h].job))
    case Release(h) =>
      && h in s.live && s.live[h].stage.Marked?
      && s.live[h].proc in s.procs && s.procs[s.live[h].proc].slots > 0
    case Cancel(p) => p in s.procs
    case Drain(p) => p in s.procs && s.procs[p].phase.Polling? && s.procs[p].cancelled
    case Stop(p) => p in s.procs && s.procs[p].phase.Draining? && s.procs[p].slots == 0
    case Crash(p) => p in s.procs
    case Reset(at) => at <= s.now
  }

  /** Every locked id has a snapshot; always true (see Sound), needed for well-formedness only. */
  predicate IdsKnown(s: State, p: ProcId)
    requires p in s.procs && s.procs[p].phase.Locked?
  {
    forall i :: 0 <= i < |s.procs[p].phase.ids| ==> s.procs[p].phase.ids[i] in s.procs[p].phase.snaps
  }

  function InPhaseNow(s: State, p: ProcId, phase: Phase): State
    requires p in s.procs
  {
    s.(procs := s.procs[p := s.procs[p].(phase := phase)])
  }

  function AtStage(s: State, h: HandleId, stage: Stage): State
    requires h in s.live
  {
    s.(live := s.live[h := s.live[h].(stage := stage)])
  }

  predicate InBatch(base: HandleId, size: nat, h: HandleId) {
    base <= h < base + size
  }

  /** The handles a successful Dequeue hands to the launch loop. */
  function NewHandles(p: ProcId, base: HandleId, tx: Phase): (m: map<HandleId, Handle>)
    requires tx.Locked? && forall i :: 0 <= i < |tx.ids| ==> tx.ids[i] in tx.snaps
    ensures forall h :: h in m <==> InBatch(base, |tx.ids|, h)
    ensures forall h :: h in m ==>
              && InBatch(base, |tx.ids|, h)
              && m[h] == Handle(p, tx.ids[h - base], tx.snaps[tx.ids[h - base]], tx.start, Waiting)
  {
    map h: HandleId | base <= h < base + |tx.ids| && InBatch(base, |tx.ids|, h) ::
      Handle(p, tx.ids[h - base], tx.snaps[tx.ids[h - base]], tx.start, Waiting)
  }

  function Do(cfg: Config, s: State, step: Step): State
    requires Enabled(cfg, s, step)
  {
    match step
    case Tick(delta) => s.(now := s.now + delta)
    case Enqueue(id, eventId, key, target, at) =>
      s.(rows := s.rows[id := NewJob(eventId, key, target, cfg.maxAttempts, at)])
    case StartProc(p) => s.(procs := s.procs[p := Proc(Polling, 0, false, s.now + cfg.pollInterval)])
    case Begin(p, next) => s.(procs := s.procs[p := s.procs[p].(phase := Begun(s.now), due := next)])
    case Select(p, ids) =>
      InPhaseNow(s, p, Locked(s.procs[p].phase.start, ids, map id | id in ids :: s.rows[id]))
    case Rollback(p) => InPhaseNow(s, p, Polling)
    case Commit(p) => DoCommit(s, p)
    case CommitLost(p) =>
      var tx := s.procs[p].phase;
      InPhaseNow(s, p, Polling).(rows := ClaimRows(s.rows, tx.ids, tx.start))
    case Launch(p) => DoLaunch(s, p)
    case EndBatch(p) => InPhaseNow(s, p, Polling)
    case Execute(h, answers) =>
      AtStage(s, h, Executed(s.live[h].stage.startedAt,
                             Executor.OutcomeOf(cfg.executor, s.live[h].snap.target, answers)))
    case Settle(h, at, applied) => DoSettle(s, h, at, applied)
    case Release(h) =>
      var p := s.live[h].proc;
      s.(live := s.live - {h}, procs := s.procs[p := s.procs[p].(slots := s.procs[p].slots - 1)])
    case Cancel(p) => s.(procs := s.procs[p := s.procs[p].(cancelled := true)])
    case Drain(p) => InPhaseNow(s, p, Draining)
    case Stop(p) => InPhaseNow(s, p, Stopped)
    case Crash(p) =>
      s.(procs := s.procs - {p}, live := map h | h in s.live && s.live[h].proc != p :: s.live[h])
    case Reset(at) => s.(rows := ResetRows(s.rows, at - cfg.stuckTimeout, s.now))
  }

  function DoCommit(s: State, p: ProcId): State
    requires p in s.procs && s.procs[p].phase.Locked? && IdsKnown(s, p)
  {
    var tx := s.procs[p].phase;
    var end := s.nextHandle + |tx.ids|;
    InPhaseNow(s, p, Launching(tx.start, s.nextHandle, s.nextHandle, end)).(
      rows := ClaimRows(s.rows, tx.ids, tx.start),
      live := s.live + NewHandles(p, s.nextHandle, tx),
      nextHandle := end)
  }

  function DoLaunch(s: State, p: ProcId): State
    requires p in s.procs && s.procs[p].phase.Launching? && s.procs[p].phase.next in s.live
  {
    var proc := s.procs[p];
    var h := proc.phase.next;
    AtStage(s, h, Executing(s.now)).(
      procs := s.procs[p := proc.(phase := proc.phase.(next := h + 1), slots := proc.slots + 1)])
  }

  function DoSettle(s: State, h: HandleId, at: int, applied: bool): State
    requires h in s.live && s.live[h].stage.Executed?
  {
    var l := s.live[h];
    AtStage(s, h, Marked(l.stage.startedAt)).(
      rows := if applied then ApplyMark(s.rows, l.job, Decide(l.snap, l.stage.outcome, at), s.now) else s.rows)
  }

  // ----- runs -----

  ghost predicate IsRun(cfg: Config, s: State, run: seq<Step>)
    decreases |run|
  {
    run == [] || (Enabled(cfg, s, run[0]) && IsRun(cfg, Do(cfg, s, run[0]), run[1..]))
  }

  ghost function Exec(cfg: Config, s: State, run: seq<Step>): State
    requires IsRun(cfg, s, run)
    decreases |run|
  {
    if run == [] then s else Exec(cfg, Do(cfg, s, run[0]), run[1..])
  }

  // ----- what a step does to one row -----

  /** A committed claim of this row, acknowledged or not. */
  predicate Claims(s: State, step: Step, id: JobId) {
    (step.Commit? || step.CommitLost?) && Holds(s, step.p, id)
  }

  /** An applied mark on this row. */
  predicate Marks(s: State, step: Step, id: JobId) {
    step.Settle? && step.applied && step.h in s.live && s.live[step.h].stage.Executed? && s.live[step.h].job == id
  }

  function MarkOf(s: State, step: Step): Mark
    requires step.Settle? && step.h in s.live && s.live[step.h].stage.Executed?
  {
    Decide(s.live[step.h].snap, s.live[step.h].stage.outcome, step.at)
  }

  predicate Resets(cfg: Config, s: State, step: Step, id: JobId) {
    step.Reset? && id in s.rows && Stuck(s.rows[id], step.at - cfg.stuckTimeout)
  }

  /** The worker of this handle may still mark its row. */
  predicate Owning(l: Handle) {
    !l.stage.Marked?
  }

  /** A reset that touches no job a worker still holds. */
  ghost predicate Gentle(cfg: Config, s: State, step: Step) {
    step.Reset? ==>
      forall h :: h in s.live && Owning(s.live[h]) && s.live[h].job in s.rows ==>
        !Stuck(s.rows[s.live[h].job], step.at - cfg.stuckTimeout)
  }

  ghost predicate GentleRun(cfg: Config, s: State, run: seq<Step>)
    requires IsRun(cfg, s, run)
    decreases |run|
  {
    run == [] || (Gentle(cfg, s, run[0]) && GentleRun(cfg, Do(cfg, s, run[0]), run[1..]))
  }
}
