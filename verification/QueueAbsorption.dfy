/**
 Terminal rows stay as they are exactly when no live job is reset: below the timing bound a second
 worker gets the job of a late one, and its mark changes the row the late worker has completed.
 */
module QueueAbsorption {
  import opened Domain
  import opened JobTable
  import opened Queue
  import opened QueueSafety
  import opened QueueTiming
  import opened QueueGuarantees
  import opened QueueScript
  import opened QueueWitness
  import Executor

  // ----- the second worker -----

  /** The row of the late job once it has been reset. */
  function Again(cfg: Config, s: State, span: int): Row {
    AsReset(AsRunning(Job(cfg, s.now - span), s.now - span), s.now)
  }

  /** The late state with another row for the job and the second processor in another phase. */
  function Pair(s: State, id: JobId, r: Row, proc: Proc): State {
    s.(rows := s.rows[id := r], procs := s.procs[1 := proc])
  }

  lemma DoReset(cfg: Config, s: State, id: JobId, span: int)
    requires Late(cfg, s, id, span) && cfg.stuckTimeout < span
    ensures Do(cfg, s, Reset(s.now)) == Pair(s, id, Again(cfg, s, span), Proc(Polling, 0, false, s.now))
  {
    assert ResetRows(s.rows, s.now - cfg.stuckTimeout, s.now) == s.rows[id := Again(cfg, s, span)];
    assert s.procs[1 := s.procs[1]] == s.procs;
  }

  lemma DoBegin(cfg: Config, s: State, id: JobId, r: Row)
    requires cfg.pollInterval >= 1
    ensures var next := s.now + cfg.pollInterval;
            var t := Pair(s, id, r, Proc(Polling, 0, false, s.now));
            && Enabled(cfg, t, Begin(1, next))
            && Do(cfg, t, Begin(1, next)) == Pair(s, id, r, Proc(Begun(s.now), 0, false, next))
  {
    OneBeat(cfg, s.now, s.now);
  }

  function OneLock(s: State, id: JobId, r: Row): Phase {
    Locked(s.now, [id], map[id := r])
  }

  lemma OneIsSelection(rows: Rows, at: int, limit: nat, id: JobId)
    requires limit >= 1 && id in rows && Due(rows[id], at) && forall j :: j in rows && j != id ==> !Claimable(rows[j])
    ensures IsSelection(rows, {}, at, limit, [id])
  {
  }

  lemma DoSelectAgain(cfg: Config, s: State, id: JobId, span: int, next: int)
    requires Late(cfg, s, id, span) && cfg.concurrency >= 1
    ensures var r := Again(cfg, s, span);
            var t := Pair(s, id, r, Proc(Begun(s.now), 0, false, next));
            && Enabled(cfg, t, Select(1, [id]))
            && Do(cfg, t, Select(1, [id])) == Pair(s, id, r, Proc(OneLock(s, id, r), 0, false, next))
  {
    var r := Again(cfg, s, span);
    var t := Pair(s, id, r, Proc(Begun(s.now), 0, false, next));
    NothingLocked(t);
    OneIsSelection(t.rows, s.now, cfg.concurrency, id);
    assert Do(cfg, t, Select(1, [id])).procs[1].phase.snaps == map[id := r];
  }

  /** Both workers hold the job: the first under handle `id`, the second under `id + 1`. */
  function Both(s: State, id: JobId, r: Row, snap: Row, first: Stage, second: Stage, proc: Proc): State
    requires id in s.live
  {
    State(s.now, s.rows[id := r], s.procs[1 := proc],
          s.live[id := s.live[id].(stage := first)][id + 1 := Handle(1, id, snap, s.now, second)], id + 2)
  }

  lemma OneHandle(p: ProcId, base: HandleId, tx: Phase)
    requires tx.Locked? && |tx.ids| == 1 && tx.ids[0] in tx.snaps
    ensures NewHandles(p, base, tx) == map[base := Handle(p, tx.ids[0], tx.snaps[tx.ids[0]], tx.start, Waiting)]
  {
  }

  lemma OneClaimed(rows: Rows, id: JobId, start: int)
    requires id in rows
    ensures ClaimRows(rows, [id], start) == rows[id := AsRunning(rows[id], start)]
  {
  }

  function InLoop(s: State, id: JobId, launched: nat, next: int): Proc {
    Proc(Launching(s.now, id + 1, id + 1 + launched, id + 2), launched, false, next)
  }

  lemma CommitOne(t: State, id: JobId, r: Row)
    requires 1 in t.procs && t.procs[1].phase == OneLock(t, id, r) && IdsKnown(t, 1) && id in t.rows
    ensures DoCommit(t, 1) ==
            InPhaseNow(t, 1, Launching(t.now, t.nextHandle, t.nextHandle, t.nextHandle + 1)).(
              rows := t.rows[id := AsRunning(t.rows[id], t.now)],
              live := t.live + map[t.nextHandle := Handle(1, id, r, t.now, Waiting)],
              nextHandle := t.nextHandle + 1)
  {
    OneHandle(1, t.nextHandle, OneLock(t, id, r));
    OneClaimed(t.rows, id, t.now);
  }

  lemma PairedToBoth(s: State, id: JobId, r: Row, next: int)
    requires id in s.live && s.nextHandle == id + 1
    ensures var t := Pair(s, id, r, Proc(OneLock(s, id, r), 0, false, next));
            InPhaseNow(t, 1, Launching(s.now, id + 1, id + 1, id + 2)).(
              rows := t.rows[id := AsRunning(r, s.now)],
              live := t.live + map[id + 1 := Handle(1, id, r, s.now, Waiting)],
              nextHandle := id + 2) ==
            Both(s, id, AsRunning(r, s.now), r, s.live[id].stage, Waiting, InLoop(s, id, 0, next))
  {
    assert s.live[id := s.live[id]] == s.live;
    var h := Handle(1, id, r, s.now, Waiting);
    assert s.live + map[id + 1 := h] == s.live[id + 1 := h];
  }

  lemma DoCommitAgain(cfg: Config, s: State, id: JobId, r: Row, next: int)
    requires id in s.live && s.nextHandle == id + 1
    ensures var t := Pair(s, id, r, Proc(OneLock(s, id, r), 0, false, next));
            && Enabled(cfg, t, Commit(1))
            && Do(cfg, t, Commit(1)) ==
               Both(s, id, AsRunning(r, s.now), r, s.live[id].stage, Waiting, InLoop(s, id, 0, next))
  {
    var t := Pair(s, id, r, Proc(OneLock(s, id, r), 0, false, next));
    assert IdsKnown(t, 1);
    CommitOne(t, id, r);
    PairedToBoth(s, id, r, next);
    assert Do(cfg, t, Commit(1)) == DoCommit(t, 1);
  }

  lemma DoLaunchAgain(cfg: Config, s: State, id: JobId, r: Row, snap: Row, first: Stage, next: int)
    requires id in s.live && cfg.concurrency >= 1
    ensures var t := Both(s, id, r, snap, first, Waiting, InLoop(s, id, 0, next));
            Enabled(cfg, t, Launch(1)) && Do(cfg, t, Launch(1)) ==
            Both(s, id, r, snap, first, Executing(s.now), InLoop(s, id, 1, next))
  {
  }

  lemma DoEndBatch(cfg: Config, s: State, id: JobId, r: Row, snap: Row, first: Stage, second: Stage, next: int)
    requires id in s.live
    ensures var t := Both(s, id, r, snap, first, second, InLoop(s, id, 1, next));
            Enabled(cfg, t, EndBatch(1)) && Do(cfg, t, EndBatch(1)) ==
            Both(s, id, r, snap, first, second, Proc(Polling, 1, false, next))
  {
  }

  /** Both workers at these stages, the second processor back at its ticker. */
  function Shared(cfg: Config, s: State, id: JobId, span: int, r: Row, first: Stage, second: Stage): State
    requires id in s.live
  {
    Both(s, id, r, Again(cfg, s, span), first, second, Proc(Polling, 1, false, s.now + cfg.pollInterval))
  }

  function RunningAgain(cfg: Config, s: State, span: int): Row {
    AsRunning(Again(cfg, s, span), s.now)
  }

  function DoneAgain(cfg: Config, s: State, span: int): Row {
    AsCompleted(RunningAgain(cfg, s, span), s.now)
  }

  // ----- from the late worker to a row it has completed -----

  lemma ToLocked(cfg: Config, b: Bounds, s0: State, run: seq<Step>, s: State, id: JobId, span: int)
    returns (longer: seq<Step>, u: State)
    requires cfg.concurrency >= 1 && cfg.pollInterval >= 1 && cfg.stuckTimeout < span
    requires Path(cfg, b, s0, run, s) && Late(cfg, s, id, span)
    ensures var r := Again(cfg, s, span);
            && Path(cfg, b, s0, longer, u)
            && u == Pair(s, id, r, Proc(OneLock(s, id, r), 0, false, s.now + cfg.pollInterval))
  {
    var r, next := Again(cfg, s, span), s.now + cfg.pollInterval;
    DoReset(cfg, s, id, span);
    longer, u := Next(cfg, b, s0, run, s, Reset(s.now));
    DoBegin(cfg, s, id, r);
    longer, u := Next(cfg, b, s0, longer, u, Begin(1, next));
    DoSelectAgain(cfg, s, id, span, next);
    longer, u := Next(cfg, b, s0, longer, u, Select(1, [id]));
  }

  lemma ToInLoop(cfg: Config, b: Bounds, s0: State, run: seq<Step>, t: State, s: State, id: JobId, r: Row, next: int)
    returns (longer: seq<Step>, u: State)
    requires id in s.live && s.nextHandle == id + 1 && cfg.concurrency >= 1
    requires Path(cfg, b, s0, run, t) && t == Pair(s, id, r, Proc(OneLock(s, id, r), 0, false, next))
    ensures Path(cfg, b, s0, longer, u)
    ensures u == Both(s, id, AsRunning(r, s.now), r, s.live[id].stage, Executing(s.now), InLoop(s, id, 1, next))
  {
    DoCommitAgain(cfg, s, id, r, next);
    longer, u := Next(cfg, b, s0, run, t, Commit(1));
    DoLaunchAgain(cfg, s, id, AsRunning(r, s.now), r, s.live[id].stage, next);
    longer, u := Next(cfg, b, s0, longer, u, Launch(1));
  }

  lemma ToShared(cfg: Config, b: Bounds, s0: State, run: seq<Step>, s: State, id: JobId, span: int)
    returns (longer: seq<Step>, u: State)
    requires cfg.concurrency >= 1 && cfg.pollInterval >= 1 && cfg.stuckTimeout < span
    requires Path(cfg, b, s0, run, s) && Late(cfg, s, id, span)
    ensures Path(cfg, b, s0, longer, u)
    ensures u == Shared(cfg, s, id, span, RunningAgain(cfg, s, span), s.live[id].stage, Executing(s.now))
  {
    var r, next := Again(cfg, s, span), s.now + cfg.pollInterval;
    longer, u := ToLocked(cfg, b, s0, run, s, id, span);
    longer, u := ToInLoop(cfg, b, s0, longer, u, s, id, r, next);
    DoEndBatch(cfg, s, id, AsRunning(r, s.now), r, s.live[id].stage, Executing(s.now), next);
    longer, u := Next(cfg, b, s0, longer, u, EndBatch(1));
  }

  lemma SharedStage(cfg: Config, s: State, id: JobId, span: int, r: Row, first: Stage, second: Stage, x: Stage)
    requires id in s.live
    ensures var t := Shared(cfg, s, id, span, r, first, second);
            && AtStage(t, id, x) == Shared(cfg, s, id, span, r, x, second)
            && AtStage(t, id + 1, x) == Shared(cfg, s, id, span, r, first, x)
  {
    var t := Shared(cfg, s, id, span, r, first, second);
    assert t.live[id] == s.live[id].(stage := first);
    assert AtStage(t, id, x).live == Shared(cfg, s, id, span, r, x, second).live;
    assert AtStage(t, id + 1, x).live == Shared(cfg, s, id, span, r, first, x).live;
  }

  lemma SharedRow(cfg: Config, s: State, id: JobId, span: int, r: Row, first: Stage, second: Stage, x: Row)
    requires id in s.live
    ensures var t := Shared(cfg, s, id, span, r, first, second);
            t.(rows := t.rows[id := x]) == Shared(cfg, s, id, span, x, first, second)
  {
    assert s.rows[id := r][id := x] == s.rows[id := x];
  }

  lemma SharedLooks(cfg: Config, s: State, id: JobId, span: int, r: Row, first: Stage, second: Stage)
    requires Late(cfg, s, id, span)
    ensures var t := Shared(cfg, s, id, span, r, first, second);
            && id in t.live && t.live[id] == s.live[id].(stage := first)
            && id + 1 in t.live && t.live[id + 1] == Handle(1, id, Again(cfg, s, span), s.now, second)
            && t.live.Keys == {id, id + 1}
            && t.procs.Keys == {0, 1} && t.procs[0] == s.procs[0] && t.procs[1].phase.Polling?
            && t.rows[id] == r
  {
  }

  /** The first worker has completed the row; the second is in the middle of it. */
  function Completed1(cfg: Config, s: State, id: JobId, span: int): State
    requires id in s.live && s.live[id].stage.Executing?
  {
    Shared(cfg, s, id, span, DoneAgain(cfg, s, span), Marked(s.live[id].stage.startedAt), Executing(s.now))
  }

  lemma FirstCompletes(cfg: Config, b: Bounds, s0: State, run: seq<Step>, t: State, s: State, id: JobId, span: int)
    returns (longer: seq<Step>, u: State)
    requires Late(cfg, s, id, span) && Path(cfg, b, s0, run, t)
    requires t == Shared(cfg, s, id, span, RunningAgain(cfg, s, span), s.live[id].stage, Executing(s.now))
    ensures Path(cfg, b, s0, longer, u) && u == Completed1(cfg, s, id, span)
  {
    var since, first, second := s.live[id].stage.startedAt, s.live[id].stage, Executing(s.now);
    var running, executed := RunningAgain(cfg, s, span), Executed(since, Outcome0(cfg));
    SharedLooks(cfg, s, id, span, running, first, second);
    DoExecute(cfg, t, id, since);
    longer, u := Next(cfg, b, s0, run, t, Step.Execute(id, YES));
    SharedStage(cfg, s, id, span, running, first, second, executed);
    SharedLooks(cfg, s, id, span, running, executed, second);
    SettleCompletes(cfg, u, id, since);
    longer, u := Next(cfg, b, s0, longer, u, Settle(id, s.now, true));
    SharedStage(cfg, s, id, span, running, executed, second, Marked(since));
    SharedRow(cfg, s, id, span, running, Marked(since), second, DoneAgain(cfg, s, span));
  }

  lemma ToCompleted(cfg: Config, b: Bounds) returns (run: seq<Step>, s: State, id: JobId)
    requires cfg.concurrency >= 1 && cfg.pollInterval >= 1 && cfg.stuckTimeout < b.T + Delay(cfg, b)
    ensures Late(cfg, s, id, b.T + Delay(cfg, b))
    ensures Path(cfg, b, Start(), run, Completed1(cfg, s, id, b.T + Delay(cfg, b)))
  {
    var span := b.T + Delay(cfg, b);
    var t;
    run, s, id := BoundIsReached(cfg, b);
    run, t := ToShared(cfg, b, Start(), run, s, id, span);
    run, t := FirstCompletes(cfg, b, Start(), run, t, s, id, span);
  }

  // ----- the second mark -----

  lemma DoFail(cfg: Config, s: State, id: JobId, span: int, r: Row, first: Stage)
    requires Late(cfg, s, id, span) && !Executor.NotConfigured(cfg.executor, Done)
    ensures var t := Shared(cfg, s, id, span, r, first, Executing(s.now));
            && Enabled(cfg, t, Step.Execute(id + 1, NO))
            && Do(cfg, t, Step.Execute(id + 1, NO)) == Shared(cfg, s, id, span, r, first, Executed(s.now, Retryable))
  {
    SharedLooks(cfg, s, id, span, r, first, Executing(s.now));
    SharedStage(cfg, s, id, span, r, first, Executing(s.now), Executed(s.now, Retryable));
    assert Executor.OutcomeOf(cfg.executor, Done, NO) == Retryable;
  }

  lemma DoSecondMark(cfg: Config, s: State, id: JobId, span: int, r: Row, first: Stage)
    requires Late(cfg, s, id, span)
    ensures var t := Shared(cfg, s, id, span, r, first, Executed(s.now, Retryable));
            var m := Decide(Again(cfg, s, span), Retryable, s.now);
            && Enabled(cfg, t, Settle(id + 1, s.now, true))
            && Do(cfg, t, Settle(id + 1, s.now, true)) ==
               Shared(cfg, s, id, span, MarkedRow(r, m, s.now), first, Marked(s.now))
  {
    var t := Shared(cfg, s, id, span, r, first, Executed(s.now, Retryable));
    var m := Decide(Again(cfg, s, span), Retryable, s.now);
    SharedLooks(cfg, s, id, span, r, first, Executed(s.now, Retryable));
    SharedStage(cfg, s, id, span, r, first, Executed(s.now, Retryable), Marked(s.now));
    SharedRow(cfg, s, id, span, r, first, Marked(s.now), MarkedRow(r, m, s.now));
    assert !IsLocked(t, id);
    assert DoSettle(t, id + 1, s.now, true) ==
           AtStage(t, id + 1, Marked(s.now)).(rows := t.rows[id := MarkedRow(r, m, s.now)]);
  }

  /** A run to a completed row, and a continuation after which the row is another. */
  ghost predicate Spoils(cfg: Config, b: Bounds, first: seq<Step>, more: seq<Step>, id: JobId, end: State) {
    && IsRun(cfg, Start(), first) && TimelyRun(cfg, b, Start(), first)
    && var c := Exec(cfg, Start(), first);
       && id in c.rows && c.rows[id].status == Completed
       && Path(cfg, b, c, more, end) && id in end.rows && end.rows[id] != c.rows[id]
  }

  /** Below the bound, with a transition to fail: a timely run to a completed row, and two more steps that
      make the row failed, or dead if no attempt is left. */
  lemma CompletedRowRequeued(cfg: Config, b: Bounds)
    returns (first: seq<Step>, more: seq<Step>, id: JobId, end: State)
    requires cfg.concurrency >= 1 && cfg.pollInterval >= 1 && cfg.stuckTimeout < b.T + Delay(cfg, b)
    requires !Executor.NotConfigured(cfg.executor, Done)
    ensures Spoils(cfg, b, first, more, id, end)
    ensures end.rows[id].attempts == 1
    ensures end.rows[id].status == if cfg.maxAttempts >= 2 then Failed else Dead
  {
    var span := b.T + Delay(cfg, b);
    var s;
    first, s, id := ToCompleted(cfg, b);
    var c, done := Completed1(cfg, s, id, span), DoneAgain(cfg, s, span);
    var mark := Marked(s.live[id].stage.startedAt);
    Stay(cfg, b, c);
    DoFail(cfg, s, id, span, done, mark);
    more, end := Next(cfg, b, c, [], c, Step.Execute(id + 1, NO));
    DoSecondMark(cfg, s, id, span, done, mark);
    more, end := Next(cfg, b, c, more, end, Settle(id + 1, s.now, true));
  }

  /** Below the bound, with time for a run: the second worker completes the row again, later. */
  lemma CompletedRowRewritten(cfg: Config, b: Bounds)
    returns (first: seq<Step>, more: seq<Step>, id: JobId, end: State)
    requires cfg.concurrency >= 1 && cfg.pollInterval >= 1 && cfg.stuckTimeout < b.T + Delay(cfg, b)
    requires b.T >= 1
    ensures Spoils(cfg, b, first, more, id, end)
    ensures end.rows[id].status == Completed
    ensures end.rows[id].completedAt != Exec(cfg, Start(), first).rows[id].completedAt
  {
    var span := b.T + Delay(cfg, b);
    var s;
    first, s, id := ToCompleted(cfg, b);
    var c := Completed1(cfg, s, id, span);
    more, end := LetGo(cfg, b, s, id, span);
    more, end := CompleteAgain(cfg, b, c, more, end, id, s.now);
  }

  /** The second worker's view of the state: it executes the job since `since`. */
  predicate AtWork(t: State, id: JobId, since: int) {
    && id + 1 in t.live && t.live[id + 1].stage == Executing(since) && t.live[id + 1].job == id
    && t.live[id + 1].snap.target == Done
    && id in t.rows && forall p :: p in t.procs ==> !t.procs[p].phase.Locked?
  }

  /** The first worker lets go of its slot, and an instant passes. */
  lemma LetGo(cfg: Config, b: Bounds, s: State, id: JobId, span: int) returns (more: seq<Step>, t: State)
    requires Late(cfg, s, id, span) && b.T >= 1 && cfg.pollInterval >= 1
    ensures Path(cfg, b, Completed1(cfg, s, id, span), more, t)
    ensures t.now == s.now + 1 && t.rows == Completed1(cfg, s, id, span).rows && AtWork(t, id, s.now)
  {
    var c, mark := Completed1(cfg, s, id, span), Marked(s.live[id].stage.startedAt);
    SharedLooks(cfg, s, id, span, DoneAgain(cfg, s, span), mark, Executing(s.now));
    Stay(cfg, b, c);
    DoRelease(cfg, c, id);
    more, t := Next(cfg, b, c, [], c, Release(id));
    more, t := Next(cfg, b, c, more, t, Tick(1));
  }

  lemma CompleteAgain(cfg: Config, b: Bounds, c: State, run: seq<Step>, t: State, id: JobId, since: int)
    returns (longer: seq<Step>, u: State)
    requires Path(cfg, b, c, run, t) && AtWork(t, id, since) && since <= t.now
    ensures Path(cfg, b, c, longer, u) && id in u.rows && u.rows[id] == AsCompleted(t.rows[id], t.now)
  {
    DoExecute(cfg, t, id + 1, since);
    longer, u := Next(cfg, b, c, run, t, Step.Execute(id + 1, YES));
    SettleCompletes(cfg, u, id + 1, since);
    longer, u := Next(cfg, b, c, longer, u, Settle(id + 1, t.now, true));
  }

  // ----- absorption, exactly -----

  /** A row terminal after `first` is the same, in every column, after `more`. */
  ghost predicate Keeps(cfg: Config, b: Bounds, s: State, first: seq<Step>, more: seq<Step>, id: JobId) {
    && Init(s) && IsRun(cfg, s, first) && TimelyRun(cfg, b, s, first)
    && IsRun(cfg, Exec(cfg, s, first), more) && TimelyRun(cfg, b, Exec(cfg, s, first), more)
    && id in Exec(cfg, s, first).rows && Terminal(Exec(cfg, s, first).rows[id]) ==>
    var e := Exec(cfg, Exec(cfg, s, first), more);
    id in e.rows && e.rows[id] == Exec(cfg, s, first).rows[id]
  }

  lemma KeepsInTime(cfg: Config, b: Bounds, s: State, first: seq<Step>, more: seq<Step>, id: JobId)
    requires cfg.stuckTimeout >= b.T + Delay(cfg, b)
    ensures Keeps(cfg, b, s, first, more, id)
  {
    if Init(s) && IsRun(cfg, s, first) && TimelyRun(cfg, b, s, first) {
      var c := Exec(cfg, s, first);
      if IsRun(cfg, c, more) && TimelyRun(cfg, b, c, more) && id in c.rows && Terminal(c.rows[id]) {
        TimelyTerminal(cfg, b, s, first, more, id);
      }
    }
  }

  /** For any number of slots, any poll interval and any bounds: StuckJobTimeout >= T + Delay if and only
      if completed and dead rows keep every column through every timely continuation of every timely run
      from an empty system. (If runs take no time at all, the second mark must be able to fail.) */
  lemma AbsorptionIsExact(cfg: Config, b: Bounds)
    requires cfg.concurrency >= 1 && cfg.pollInterval >= 1
    requires !Executor.NotConfigured(cfg.executor, Done) || b.T >= 1
    ensures cfg.stuckTimeout >= b.T + Delay(cfg, b) <==> forall s, first, more, id :: Keeps(cfg, b, s, first, more, id)
  {
    if cfg.stuckTimeout >= b.T + Delay(cfg, b) {
      forall s, first, more, id
        ensures Keeps(cfg, b, s, first, more, id)
      {
        KeepsInTime(cfg, b, s, first, more, id);
      }
    } else {
      var first, more, id, end;
      if b.T >= 1 {
        first, more, id, end := CompletedRowRewritten(cfg, b);
      } else {
        first, more, id, end := CompletedRowRequeued(cfg, b);
      }
      assert !Keeps(cfg, b, Start(), first, more, id);
    }
  }

  // ----- one step -----

  /** In any reachable state, a step changes a terminal row exactly when it is an applied mark on it,
      other than completing it again at the very instant it was completed. */
  lemma TerminalChangesExactlyWhen(cfg: Config, s: State, step: Step, id: JobId)
    requires Sound(cfg, s) && Enabled(cfg, s, step) && id in s.rows && Terminal(s.rows[id])
    ensures id in Do(cfg, s, step).rows
    ensures Do(cfg, s, step).rows[id] != s.rows[id] <==>
            && Marks(s, step, id)
            && !(MarkOf(s, step).Complete? && s.rows[id].status == Completed && s.rows[id].completedAt == Some(s.now))
    ensures !Terminal(Do(cfg, s, step).rows[id]) <==> Marks(s, step, id) && MarkOf(s, step).Fail?
  {
    RowChange(cfg, s, step, id);
    assert RowOk(s.rows[id]);
  }
}
