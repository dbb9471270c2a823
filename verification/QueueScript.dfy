/**
 Timely runs built step by step: a processor that polls on its ticks, batches of jobs that fill its
 slots, wait for them and leave them. `QueueWitness` plays these to the limit of the bounds.
 */
module QueueScript {
  import opened Domain
  import opened JobTable
  import opened Queue
  import opened QueueRuns
  import opened QueueTiming
  import Executor

  // ----- runs under construction -----

  /** A timely run from s to t. */
  ghost predicate Path(cfg: Config, b: Bounds, s: State, run: seq<Step>, t: State) {
    Leads(cfg, s, run, t) && TimelyRun(cfg, b, s, run)
  }

  lemma {:induction false} Joins(cfg: Config, b: Bounds, s: State, run: seq<Step>, t: State, more: seq<Step>, u: State)
    requires Path(cfg, b, s, run, t) && Path(cfg, b, t, more, u)
    ensures Path(cfg, b, s, run + more, u)
    decreases |run|
  {
    Concat(cfg, s, run, t, more, u);
    if run == [] {
      assert run + more == more;
    } else {
      Joins(cfg, b, Do(cfg, s, run[0]), run[1..], t, more, u);
      assert (run + more)[1..] == run[1..] + more;
    }
  }

  /** One more timely step. */
  lemma Next(cfg: Config, b: Bounds, s: State, run: seq<Step>, t: State, step: Step)
    returns (longer: seq<Step>, u: State)
    requires Path(cfg, b, s, run, t) && Enabled(cfg, t, step) && Timely(cfg, b, t, step)
    ensures longer == run + [step] && u == Do(cfg, t, step) && Path(cfg, b, s, longer, u)
  {
    longer, u := run + [step], Do(cfg, t, step);
    Single(cfg, t, step);
    assert [step][1..] == [];
    Joins(cfg, b, s, run, t, [step], u);
  }

  lemma Stay(cfg: Config, b: Bounds, s: State)
    ensures Path(cfg, b, s, [], s)
  {
  }

  // ----- the scene -----

  const YES := Executor.Answers(None, Executor.Success)
  const NO := Executor.Answers(None, Executor.HttpError(500))

  function Job(cfg: Config, at: int): Row {
    NewJob(0, "K-1", Done, cfg.maxAttempts, at)
  }

  /** Handles and jobs share their numbers. Those from `lo` to `mid` were claimed at `claimed` and
      execute since `since`; those from `mid` to `hi` were claimed at `asked` and wait for a slot; the
      next `wanted` jobs were asked for at `asked` and are claimable; those below `lo` are terminal. */
  datatype Scene = Scene(lo: nat, mid: nat, hi: nat, wanted: nat, claimed: int, since: int, asked: int)

  function InFlight(cfg: Config, v: Scene, h: HandleId): Handle {
    Handle(0, h, Job(cfg, v.claimed), v.claimed, Executing(v.since))
  }

  function InLine(cfg: Config, v: Scene, h: HandleId): Handle {
    Handle(0, h, Job(cfg, v.asked), v.asked, Waiting)
  }

  ghost predicate LiveAs(cfg: Config, live: map<HandleId, Handle>, v: Scene) {
    && (forall h: HandleId :: h in live <==> v.lo <= h < v.hi)
    && (forall h :: h in live ==> live[h] == if h < v.mid then InFlight(cfg, v, h) else InLine(cfg, v, h))
  }

  /** Rows that are not terminal. */
  function RowAs(cfg: Config, v: Scene, id: JobId): Row {
    if id < v.mid then AsRunning(Job(cfg, v.claimed), v.claimed)
    else if id < v.hi then AsRunning(Job(cfg, v.asked), v.asked)
    else Job(cfg, v.asked)
  }

  ghost predicate RowsAs(cfg: Config, rows: Rows, v: Scene) {
    && (forall id: JobId :: id in rows <==> id < v.hi + v.wanted)
    && (forall id :: id in rows ==> if id < v.lo then Terminal(rows[id]) else rows[id] == RowAs(cfg, v, id))
  }

  predicate CrewAs(procs: map<ProcId, Proc>, proc: Proc) {
    && 0 in procs && procs[0] == proc
    && forall p :: p in procs && p != 0 ==> procs[p].phase.Polling?
  }

  /** The scene, with processor 0 in this phase and nobody else past polling. */
  ghost predicate House(cfg: Config, s: State, v: Scene, phase: Phase, due: int) {
    && v.lo <= v.mid <= v.hi == s.nextHandle
    && LiveAs(cfg, s.live, v) && RowsAs(cfg, s.rows, v)
    && CrewAs(s.procs, Proc(phase, v.mid - v.lo, false, due))
  }

  /** No time has passed, and of the processors only number 0 has changed. */
  predicate OnlyZero(t: State, u: State) {
    u.now == t.now && 0 in u.procs && u.procs == t.procs[0 := u.procs[0]]
  }

  // ----- asking and claiming -----

  lemma AskedRows(cfg: Config, rows: Rows, v: Scene)
    requires v.lo <= v.mid <= v.hi && RowsAs(cfg, rows, v)
    ensures v.hi + v.wanted !in rows
    ensures RowsAs(cfg, rows[v.hi + v.wanted := Job(cfg, v.asked)], v.(wanted := v.wanted + 1))
  {
  }

  lemma AskedHouse(cfg: Config, t: State, v: Scene, phase: Phase, due: int)
    requires House(cfg, t, v, phase, due)
    ensures v.hi + v.wanted !in t.rows
    ensures House(cfg, t.(rows := t.rows[v.hi + v.wanted := Job(cfg, v.asked)]), v.(wanted := v.wanted + 1), phase, due)
  {
    AskedRows(cfg, t.rows, v);
  }

  lemma DoAsk(cfg: Config, t: State, id: JobId)
    requires id !in t.rows
    ensures Enabled(cfg, t, Enqueue(id, 0, "K-1", Done, t.now))
    ensures Do(cfg, t, Enqueue(id, 0, "K-1", Done, t.now)) == t.(rows := t.rows[id := Job(cfg, t.now)])
  {
  }

  lemma AskOne(cfg: Config, b: Bounds, s: State, run: seq<Step>, t: State, v: Scene, phase: Phase, due: int)
    returns (longer: seq<Step>, u: State)
    requires Path(cfg, b, s, run, t) && House(cfg, t, v, phase, due) && v.asked == t.now
    ensures Path(cfg, b, s, longer, u) && u.now == t.now && u.procs == t.procs
    ensures House(cfg, u, v.(wanted := v.wanted + 1), phase, due)
  {
    AskedHouse(cfg, t, v, phase, due);
    DoAsk(cfg, t, v.hi + v.wanted);
    longer, u := Next(cfg, b, s, run, t, Enqueue(v.hi + v.wanted, 0, "K-1", Done, t.now));
  }

  /** n jobs are asked for at once. */
  lemma {:induction false} Ask(cfg: Config, b: Bounds, s: State, run: seq<Step>, t: State, v: Scene, phase: Phase,
                               due: int, n: nat)
    returns (longer: seq<Step>, u: State)
    requires Path(cfg, b, s, run, t) && House(cfg, t, v, phase, due) && v.asked == t.now
    ensures Path(cfg, b, s, longer, u) && u.now == t.now && u.procs == t.procs
    ensures House(cfg, u, v.(wanted := v.wanted + n), phase, due)
    decreases n
  {
    longer, u := run, t;
    if n > 0 {
      longer, u := AskOne(cfg, b, s, run, t, v, phase, due);
      longer, u := Ask(cfg, b, s, longer, u, v.(wanted := v.wanted + 1), phase, due, n - 1);
    }
  }

  function From(first: nat, n: nat): (ids: seq<nat>)
    ensures |ids| == n && forall i :: 0 <= i < n ==> ids[i] == first + i
  {
    seq(n, i => first + i)
  }

  lemma FromHas(first: nat, n: nat)
    ensures forall id: nat :: id in From(first, n) <==> first <= id < first + n
  {
    forall id: nat | first <= id < first + n ensures id in From(first, n) { assert From(first, n)[id - first] == id; }
  }

  lemma NothingLocked(s: State)
    requires forall p :: p in s.procs ==> !s.procs[p].phase.Locked?
    ensures LockedIds(s) == {}
  {
  }

  lemma WantedIsSelection(cfg: Config, rows: Rows, v: Scene, at: int)
    requires v.lo <= v.mid <= v.hi && RowsAs(cfg, rows, v) && v.wanted <= cfg.concurrency && v.asked <= at
    ensures IsSelection(rows, {}, at, cfg.concurrency, From(v.hi, v.wanted))
  {
    FromHas(v.hi, v.wanted);
    forall id: nat
      ensures Selectable(rows, {}, at, id) <==> v.hi <= id < v.hi + v.wanted
    {
    }
  }

  /** What the claim transaction of processor 0 has in hand. */
  function Claimed(cfg: Config, v: Scene, start: int): Phase {
    Locked(start, From(v.hi, v.wanted), map id | id in From(v.hi, v.wanted) :: Job(cfg, v.asked))
  }

  lemma WantedSnaps(cfg: Config, rows: Rows, v: Scene)
    requires v.lo <= v.mid <= v.hi && RowsAs(cfg, rows, v)
    ensures forall id :: id in From(v.hi, v.wanted) ==> id in rows && rows[id] == Job(cfg, v.asked)
  {
    FromHas(v.hi, v.wanted);
  }

  /** Processor 0 in this phase and with this next tick, and nothing else changed. */
  function ZeroIn(t: State, phase: Phase, due: int): State
    requires 0 in t.procs
  {
    t.(procs := t.procs[0 := t.procs[0].(phase := phase, due := due)])
  }

  lemma DoSelect(cfg: Config, t: State, v: Scene, due: int)
    requires House(cfg, t, v, Begun(t.now), due) && v.wanted <= cfg.concurrency && v.asked <= t.now
    ensures var step := Select(0, From(v.hi, v.wanted));
            Enabled(cfg, t, step) && Do(cfg, t, step) == ZeroIn(t, Claimed(cfg, v, t.now), due)
  {
    NothingLocked(t);
    WantedIsSelection(cfg, t.rows, v, t.now);
    WantedSnaps(cfg, t.rows, v);
    var ids := From(v.hi, v.wanted);
    assert (map id | id in ids :: t.rows[id]) == (map id | id in ids :: Job(cfg, v.asked));
  }

  lemma Choose(cfg: Config, b: Bounds, s: State, run: seq<Step>, t: State, v: Scene, due: int)
    returns (longer: seq<Step>, u: State)
    requires Path(cfg, b, s, run, t) && House(cfg, t, v, Begun(t.now), due)
    requires v.wanted <= cfg.concurrency && v.asked <= t.now
    ensures Path(cfg, b, s, longer, u) && u == ZeroIn(t, Claimed(cfg, v, t.now), due)
    ensures House(cfg, u, v, Claimed(cfg, v, t.now), due)
  {
    DoSelect(cfg, t, v, due);
    longer, u := Next(cfg, b, s, run, t, Select(0, From(v.hi, v.wanted)));
  }

  lemma ClaimedRows(cfg: Config, rows: Rows, v: Scene)
    requires v.lo <= v.mid == v.hi && RowsAs(cfg, rows, v)
    ensures RowsAs(cfg, ClaimRows(rows, From(v.hi, v.wanted), v.asked), v.(hi := v.hi + v.wanted, wanted := 0))
  {
    FromHas(v.hi, v.wanted);
  }

  lemma SnapsKnown(cfg: Config, v: Scene, start: int)
    ensures var tx := Claimed(cfg, v, start); forall i :: 0 <= i < |tx.ids| ==> tx.ids[i] in tx.snaps
  {
    var tx := Claimed(cfg, v, start);
    forall i | 0 <= i < |tx.ids| ensures tx.ids[i] in tx.snaps { assert tx.ids[i] in tx.ids; }
  }

  /** The handles of the claimed batch. */
  function Batch(cfg: Config, v: Scene): map<HandleId, Handle> {
    map h: HandleId | h < v.hi + v.wanted && v.hi <= h :: InLine(cfg, v, h)
  }

  lemma BatchIsNew(cfg: Config, v: Scene)
    requires var tx := Claimed(cfg, v, v.asked); forall i :: 0 <= i < |tx.ids| ==> tx.ids[i] in tx.snaps
    ensures NewHandles(0, v.hi, Claimed(cfg, v, v.asked)) == Batch(cfg, v)
  {
    var tx := Claimed(cfg, v, v.asked);
    var more := NewHandles(0, v.hi, tx);
    forall h | h in more ensures more[h] == InLine(cfg, v, h) { assert tx.ids[h - v.hi] == h; }
    assert more.Keys == Batch(cfg, v).Keys;
  }

  lemma BatchInLine(cfg: Config, live: map<HandleId, Handle>, v: Scene)
    requires v.lo <= v.mid == v.hi && LiveAs(cfg, live, v)
    ensures LiveAs(cfg, live + Batch(cfg, v), v.(hi := v.hi + v.wanted, wanted := 0))
  {
  }

  lemma DoCommit0(cfg: Config, t: State)
    requires 0 in t.procs && t.procs[0].phase.Locked? && IdsKnown(t, 0) && t.procs[0].phase.ids != []
    ensures Enabled(cfg, t, Commit(0)) && Do(cfg, t, Commit(0)) == DoCommit(t, 0)
  {
  }

  lemma CommittedBatch(cfg: Config, t: State, v: Scene)
    requires 0 in t.procs && t.procs[0].phase == Claimed(cfg, v, v.asked) && IdsKnown(t, 0)
    requires t.nextHandle == v.hi
    ensures DoCommit(t, 0) ==
            InPhaseNow(t, 0, Launching(v.asked, v.hi, v.hi, v.hi + v.wanted)).(
              rows := ClaimRows(t.rows, From(v.hi, v.wanted), v.asked),
              live := t.live + Batch(cfg, v),
              nextHandle := v.hi + v.wanted)
  {
    SnapsKnown(cfg, v, v.asked);
    BatchIsNew(cfg, v);
  }

  lemma ClaimedKnown(cfg: Config, t: State, v: Scene)
    requires 0 in t.procs && t.procs[0].phase == Claimed(cfg, v, v.asked)
    ensures IdsKnown(t, 0)
  {
    SnapsKnown(cfg, v, v.asked);
  }

  lemma DoCommitBatch(cfg: Config, t: State, v: Scene)
    requires 0 in t.procs && t.procs[0].phase == Claimed(cfg, v, v.asked)
    requires t.nextHandle == v.hi && v.wanted >= 1
    ensures Enabled(cfg, t, Commit(0))
    ensures Do(cfg, t, Commit(0)) ==
            InPhaseNow(t, 0, Launching(v.asked, v.hi, v.hi, v.hi + v.wanted)).(
              rows := ClaimRows(t.rows, From(v.hi, v.wanted), v.asked),
              live := t.live + Batch(cfg, v),
              nextHandle := v.hi + v.wanted)
  {
    ClaimedKnown(cfg, t, v);
    DoCommit0(cfg, t);
    CommittedBatch(cfg, t, v);
  }

  lemma CommitBatch(cfg: Config, b: Bounds, s: State, run: seq<Step>, t: State, v: Scene, due: int)
    returns (longer: seq<Step>, u: State)
    requires Path(cfg, b, s, run, t) && House(cfg, t, v, Claimed(cfg, v, v.asked), due)
    requires v.wanted >= 1 && v.mid == v.hi
    ensures Path(cfg, b, s, longer, u) && OnlyZero(t, u)
    ensures House(cfg, u, v.(hi := v.hi + v.wanted, wanted := 0),
                  Launching(v.asked, v.hi, v.hi, v.hi + v.wanted), due)
  {
    DoCommitBatch(cfg, t, v);
    ClaimedRows(cfg, t.rows, v);
    BatchInLine(cfg, t.live, v);
    longer, u := Next(cfg, b, s, run, t, Commit(0));
  }

  /** The first beat after now. */
  function After(t: int, now: int, interval: int): (next: int)
    requires interval >= 1
    ensures t > now ==> next == t
    ensures t <= now ==> t < next && now < next <= now + interval
    ensures OnGrid(t, next, interval)
    decreases now - t
  {
    if t > now then t else After(t + interval, now, interval)
  }

  lemma Tock(cfg: Config, b: Bounds, s: State, run: seq<Step>, t: State, v: Scene, due: int, next: int)
    returns (longer: seq<Step>, u: State)
    requires Path(cfg, b, s, run, t) && House(cfg, t, v, Polling, due)
    requires due <= t.now && NextTick(cfg, due, t.now, next)
    ensures Path(cfg, b, s, longer, u) && u == ZeroIn(t, Begun(t.now), next)
    ensures House(cfg, u, v, Begun(t.now), next)
  {
    longer, u := Next(cfg, b, s, run, t, Begin(0, next));
  }

  /** A poll that claims every job asked for. */
  lemma Poll(cfg: Config, b: Bounds, s: State, run: seq<Step>, t: State, v: Scene, due: int, next: int)
    returns (longer: seq<Step>, u: State)
    requires Path(cfg, b, s, run, t) && House(cfg, t, v, Polling, due) && v.mid == v.hi
    requires 1 <= v.wanted <= cfg.concurrency && v.asked == t.now
    requires due <= t.now && NextTick(cfg, due, t.now, next)
    ensures Path(cfg, b, s, longer, u) && OnlyZero(t, u)
    ensures House(cfg, u, v.(hi := v.hi + v.wanted, wanted := 0),
                  Launching(v.asked, v.hi, v.hi, v.hi + v.wanted), next)
  {
    longer, u := Tock(cfg, b, s, run, t, v, due, next);
    longer, u := Choose(cfg, b, s, longer, u, v, next);
    longer, u := CommitBatch(cfg, b, s, longer, u, v, next);
  }

  lemma GiveUp(cfg: Config, b: Bounds, s: State, run: seq<Step>, t: State, v: Scene, due: int)
    returns (longer: seq<Step>, u: State)
    requires Path(cfg, b, s, run, t) && House(cfg, t, v, Claimed(cfg, v, t.now), due)
    ensures Path(cfg, b, s, longer, u) && u == ZeroIn(t, Polling, due) && House(cfg, u, v, Polling, due)
  {
    longer, u := Next(cfg, b, s, run, t, Rollback(0));
  }

  /** A poll that finds nothing. */
  lemma PollNothing(cfg: Config, b: Bounds, s: State, run: seq<Step>, t: State, v: Scene, due: int)
    returns (longer: seq<Step>, u: State, next: int)
    requires Path(cfg, b, s, run, t) && House(cfg, t, v, Polling, due) && v.wanted == 0
    requires due <= t.now && cfg.pollInterval >= 1 && v.asked <= t.now
    ensures Path(cfg, b, s, longer, u) && next > t.now && u == ZeroIn(t, Polling, next)
    ensures House(cfg, u, v, Polling, next)
  {
    next := After(due, t.now, cfg.pollInterval);
    longer, u := Tock(cfg, b, s, run, t, v, due, next);
    longer, u := Choose(cfg, b, s, longer, u, v, next);
    longer, u := GiveUp(cfg, b, s, longer, u, v, next);
  }

  // ----- launching -----

  lemma LaunchedMaps(cfg: Config, live: map<HandleId, Handle>, rows: Rows, v: Scene, now: int)
    requires v.lo <= v.mid < v.hi && LiveAs(cfg, live, v) && RowsAs(cfg, rows, v)
    requires v.lo == v.mid || (v.since == now && v.claimed == v.asked)
    ensures var v' := v.(mid := v.mid + 1, since := now, claimed := v.asked);
            && v.mid in live && live[v.mid] == InLine(cfg, v, v.mid)
            && LiveAs(cfg, live[v.mid := InFlight(cfg, v', v.mid)], v') && RowsAs(cfg, rows, v')
  {
  }

  lemma LaunchOne(cfg: Config, b: Bounds, s: State, run: seq<Step>, t: State, v: Scene, start: int, first: nat,
                  due: int)
    returns (longer: seq<Step>, u: State)
    requires Path(cfg, b, s, run, t) && House(cfg, t, v, Launching(start, first, v.mid, v.hi), due)
    requires v.mid < v.hi <= v.lo + cfg.concurrency
    requires v.lo == v.mid || (v.since == t.now && v.claimed == v.asked)
    ensures Path(cfg, b, s, longer, u) && OnlyZero(t, u)
    ensures House(cfg, u, v.(mid := v.mid + 1, since := t.now, claimed := v.asked),
                  Launching(start, first, v.mid + 1, v.hi), due)
  {
    LaunchedMaps(cfg, t.live, t.rows, v, t.now);
    longer, u := Next(cfg, b, s, run, t, Launch(0));
  }

  /** Every waiting job gets a slot, and the loop goes back to its ticker. */
  lemma {:induction false} LaunchAll(cfg: Config, b: Bounds, s: State, run: seq<Step>, t: State, v: Scene, start: int,
                                     first: nat, due: int)
    returns (longer: seq<Step>, u: State)
    requires Path(cfg, b, s, run, t) && House(cfg, t, v, Launching(start, first, v.mid, v.hi), due)
    requires v.hi <= v.lo + cfg.concurrency
    requires v.lo == v.mid < v.hi || (v.since == t.now && v.claimed == v.asked)
    ensures Path(cfg, b, s, longer, u) && OnlyZero(t, u)
    ensures House(cfg, u, v.(mid := v.hi, since := t.now, claimed := v.asked), Polling, due)
    decreases v.hi - v.mid
  {
    if v.mid == v.hi {
      longer, u := Next(cfg, b, s, run, t, EndBatch(0));
    } else {
      longer, u := LaunchOne(cfg, b, s, run, t, v, start, first, due);
      var v' := v.(mid := v.mid + 1, since := t.now, claimed := v.asked);
      longer, u := LaunchAll(cfg, b, s, longer, u, v', start, first, due);
    }
  }

  // ----- finishing -----

  function Outcome0(cfg: Config): Outcome {
    Executor.OutcomeOf(cfg.executor, Done, YES)
  }

  lemma DoExecute(cfg: Config, t: State, h: HandleId, since: int)
    requires h in t.live && t.live[h].stage == Executing(since) && t.live[h].snap.target == Done
    ensures Enabled(cfg, t, Step.Execute(h, YES))
    ensures Do(cfg, t, Step.Execute(h, YES)) == AtStage(t, h, Executed(since, Outcome0(cfg)))
  {
  }

  lemma SettleCompletes(cfg: Config, t: State, h: HandleId, since: int)
    requires h in t.live && t.live[h].stage == Executed(since, Outcome0(cfg)) && since <= t.now
    requires t.live[h].job in t.rows && forall p :: p in t.procs ==> !t.procs[p].phase.Locked?
    ensures Enabled(cfg, t, Settle(h, t.now, true))
    ensures var id := t.live[h].job;
            Do(cfg, t, Settle(h, t.now, true)) ==
            AtStage(t, h, Marked(since)).(rows := t.rows[id := AsCompleted(t.rows[id], t.now)])
  {
    assert Decide(t.live[h].snap, Outcome0(cfg), t.now) == Complete;
  }

  lemma DrainedMaps(cfg: Config, live: map<HandleId, Handle>, rows: Rows, v: Scene, now: int)
    requires v.lo < v.mid <= v.hi && LiveAs(cfg, live, v) && RowsAs(cfg, rows, v)
    ensures v.lo in live && live[v.lo] == InFlight(cfg, v, v.lo) && v.lo in rows
    ensures LiveAs(cfg, live - {v.lo}, v.(lo := v.lo + 1))
    ensures RowsAs(cfg, rows[v.lo := AsCompleted(rows[v.lo], now)], v.(lo := v.lo + 1))
  {
  }

  lemma DoRelease(cfg: Config, t: State, h: HandleId)
    requires h in t.live && t.live[h].stage.Marked? && t.live[h].proc == 0
    requires 0 in t.procs && t.procs[0].slots > 0
    ensures Enabled(cfg, t, Release(h))
    ensures Do(cfg, t, Release(h)) ==
            t.(live := t.live - {h}, procs := t.procs[0 := t.procs[0].(slots := t.procs[0].slots - 1)])
  {
  }

  /** The first job in flight succeeds and frees its slot. */
  lemma DrainOne(cfg: Config, b: Bounds, s: State, run: seq<Step>, t: State, v: Scene, phase: Phase, due: int)
    returns (longer: seq<Step>, u: State)
    requires Path(cfg, b, s, run, t) && House(cfg, t, v, phase, due) && !phase.Locked?
    requires v.lo < v.mid && v.since <= t.now
    ensures Path(cfg, b, s, longer, u) && OnlyZero(t, u)
    ensures House(cfg, u, v.(lo := v.lo + 1), phase, due)
  {
    var h := v.lo;
    DrainedMaps(cfg, t.live, t.rows, v, t.now);
    DoExecute(cfg, t, h, v.since);
    longer, u := Next(cfg, b, s, run, t, Step.Execute(h, YES));
    SettleCompletes(cfg, u, h, v.since);
    longer, u := Next(cfg, b, s, longer, u, Settle(h, t.now, true));
    DoRelease(cfg, u, h);
    assert u.live - {h} == t.live - {h};
    longer, u := Next(cfg, b, s, longer, u, Release(h));
  }

  lemma {:induction false} Drain(cfg: Config, b: Bounds, s: State, run: seq<Step>, t: State, v: Scene, phase: Phase,
                                 due: int)
    returns (longer: seq<Step>, u: State)
    requires Path(cfg, b, s, run, t) && House(cfg, t, v, phase, due) && !phase.Locked? && v.since <= t.now
    ensures Path(cfg, b, s, longer, u) && OnlyZero(t, u)
    ensures House(cfg, u, v.(lo := v.mid), phase, due)
    decreases v.mid - v.lo
  {
    longer, u := run, t;
    if v.lo < v.mid {
      longer, u := DrainOne(cfg, b, s, run, t, v, phase, due);
      longer, u := Drain(cfg, b, s, longer, u, v.(lo := v.lo + 1), phase, due);
    }
  }
}
