/**
 The timing bound is the best possible, for any number of slots, any poll interval and any T and L:
 below it there is a timely run in which a live job is reset, and one in which a completed row changes.
 */
module QueueWitness {
  import opened Domain
  import opened JobTable
  import opened Queue
  import opened QueueTiming
  import opened QueueScript

  function Start(): State {
    State(0, map[], map[], map[], 0)
  }

  // ----- letting time pass -----

  /** Nobody but processor 0. */
  predicate Alone(t: State) {
    t.procs.Keys == {0}
  }

  /** A second, idle processor whose first tick comes at `end`. */
  predicate Joined(t: State, end: int) {
    t.procs.Keys == {0, 1} && t.procs[1] == Proc(Polling, 0, false, end)
  }

  predicate Staffed(cfg: Config, t: State, end: int) {
    (Alone(t) && t.now <= end - cfg.pollInterval) || Joined(t, end)
  }

  /** Nothing about processor 0 and its jobs keeps the clock from reaching this instant. */
  ghost predicate CanWait(cfg: Config, b: Bounds, t: State, v: Scene, phase: Phase, due: int, until: int) {
    && House(cfg, t, v, phase, due) && t.now <= until
    && (Open(phase) ==> until <= phase.start + b.L)
    && (HasWaiting(phase) ==> v.mid - v.lo == cfg.concurrency)
    && (v.lo < v.mid ==> until <= v.since + b.T)
    && (b.prompt ==> (phase.Polling? ==> until <= due) && (phase.Launching? ==> HasWaiting(phase)))
  }

  lemma TickTo(cfg: Config, b: Bounds, s: State, run: seq<Step>, t: State, v: Scene, phase: Phase, due: int, until: int)
    returns (longer: seq<Step>, u: State)
    requires Path(cfg, b, s, run, t) && CanWait(cfg, b, t, v, phase, due, until)
    requires Alone(t) || exists end :: Joined(t, end) && until <= end
    ensures Path(cfg, b, s, longer, u) && u == t.(now := until) && House(cfg, u, v, phase, due)
  {
    longer, u := Next(cfg, b, s, run, t, Tick(until - t.now));
  }

  lemma Recruit(cfg: Config, b: Bounds, s: State, run: seq<Step>, t: State, v: Scene, phase: Phase, due: int)
    returns (longer: seq<Step>, u: State)
    requires Path(cfg, b, s, run, t) && House(cfg, t, v, phase, due) && Alone(t) && cfg.pollInterval >= 1
    ensures Path(cfg, b, s, longer, u) && u.now == t.now && House(cfg, u, v, phase, due)
    ensures Joined(u, t.now + cfg.pollInterval)
  {
    longer, u := Next(cfg, b, s, run, t, StartProc(1));
  }

  /** Time passes, and the second processor comes up when it must for its first tick to be at `end`. */
  lemma Pass(cfg: Config, b: Bounds, s: State, run: seq<Step>, t: State, v: Scene, phase: Phase, due: int, until: int,
             end: int)
    returns (longer: seq<Step>, u: State)
    requires Path(cfg, b, s, run, t) && CanWait(cfg, b, t, v, phase, due, until)
    requires cfg.pollInterval >= 1 && Staffed(cfg, t, end) && until <= end
    ensures Path(cfg, b, s, longer, u) && u.now == until && House(cfg, u, v, phase, due) && Staffed(cfg, u, end)
    ensures Alone(t) && until <= end - cfg.pollInterval ==> Alone(u)
  {
    var up := end - cfg.pollInterval;
    longer, u := run, t;
    if Alone(t) && up < until {
      longer, u := TickTo(cfg, b, s, run, t, v, phase, due, up);
      longer, u := Recruit(cfg, b, s, longer, u, v, phase, due);
    }
    assert Joined(u, end) || Alone(u);
    longer, u := TickTo(cfg, b, s, longer, u, v, phase, due, until);
  }

  lemma StaffedKept(cfg: Config, t: State, u: State, end: int)
    requires OnlyZero(t, u) && Staffed(cfg, t, end)
    ensures Staffed(cfg, u, end) && (Alone(t) ==> Alone(u))
  {
    assert 0 in t.procs;
    assert u.procs.Keys == t.procs.Keys;
  }

  /** Jobs run while the loop polls and finds nothing. */
  lemma {:induction false} IdleTo(cfg: Config, b: Bounds, s: State, run: seq<Step>, t: State, v: Scene, due: int,
                                  end: int)
    returns (longer: seq<Step>, u: State, next: int)
    requires Path(cfg, b, s, run, t) && House(cfg, t, v, Polling, due) && v.wanted == 0 && v.asked <= t.now
    requires cfg.pollInterval >= 1 && Staffed(cfg, t, end) && t.now <= end
    requires v.lo < v.mid ==> end <= v.since + b.T
    ensures Path(cfg, b, s, longer, u) && u.now == end && House(cfg, u, v, Polling, next)
    ensures Joined(u, end) && next > end
    decreases end - t.now, if due <= t.now then 1 else 0
  {
    longer, u, next := run, t, due;
    if due <= t.now {
      longer, u, next := PollNothing(cfg, b, s, run, t, v, due);
      StaffedKept(cfg, t, u, end);
      longer, u, next := IdleTo(cfg, b, s, longer, u, v, next, end);
    } else if t.now < end {
      longer, u := Pass(cfg, b, s, run, t, v, Polling, due, if due < end then due else end, end);
      longer, u, next := IdleTo(cfg, b, s, longer, u, v, due, end);
    }
  }

  // ----- a worker as late as can be -----

  /** A worker of processor 0 still executes job `id`, claimed `span` ago; every other row is terminal;
      and the tick of a second processor has just come. */
  ghost predicate Late(cfg: Config, s: State, id: JobId, span: int) {
    && Joined(s, s.now)
    && s.procs[0] == Proc(Polling, 1, false, s.procs[0].due) && s.procs[0].due > s.now
    && s.nextHandle == id + 1 && s.live.Keys == {id}
    && var claimed := s.now - span;
       && s.live[id] == Handle(0, id, Job(cfg, claimed), claimed, s.live[id].stage)
       && s.live[id].stage.Executing? && s.live[id].stage.startedAt <= s.now
       && id in s.rows && s.rows[id] == AsRunning(Job(cfg, claimed), claimed)
       && forall j :: j in s.rows && j != id ==> Terminal(s.rows[j])
  }

  lemma HouseIsLate(cfg: Config, s: State, v: Scene, due: int, span: int)
    requires House(cfg, s, v, Polling, due) && Joined(s, s.now) && due > s.now
    requires v.hi == v.mid == v.lo + 1 && v.wanted == 0 && v.since <= s.now == v.claimed + span
    ensures Late(cfg, s, v.lo, span)
  {
    var id := v.lo;
    assert id in s.live && s.live[id] == InFlight(cfg, v, id);
    assert id in s.rows && s.rows[id] == RowAs(cfg, v, id);
    assert s.live.Keys == {id};
  }

  lemma ComeUp(cfg: Config, b: Bounds, asked: int) returns (run: seq<Step>, t: State)
    requires cfg.pollInterval >= 1
    ensures Path(cfg, b, Start(), run, t) && t.now == 0 && Alone(t)
    ensures House(cfg, t, Scene(0, 0, 0, 0, 0, 0, asked), Polling, cfg.pollInterval)
  {
    Stay(cfg, b, Start());
    run, t := Next(cfg, b, Start(), [], Start(), StartProc(0));
    assert t.rows == map[] && t.live == map[];
  }

  lemma OneBeat(cfg: Config, due: int, now: int)
    requires cfg.pollInterval >= 1 && due <= now <= due + cfg.pollInterval
    ensures NextTick(cfg, due, now, due + cfg.pollInterval)
  {
    assert OnGrid(due + cfg.pollInterval, due + cfg.pollInterval, cfg.pollInterval);
  }

  /** The loop takes its first tick; its claim, of one job, stays open for L. */
  lemma SlowClaim(cfg: Config, b: Bounds, end: int) returns (run: seq<Step>, t: State, v: Scene)
    requires cfg.concurrency >= 1 && cfg.pollInterval >= 1
    requires end >= cfg.pollInterval + b.L
    ensures Path(cfg, b, Start(), run, t) && t.now == cfg.pollInterval + b.L && Staffed(cfg, t, end)
    ensures v == Scene(0, 0, 0, 1, 0, 0, cfg.pollInterval)
    ensures House(cfg, t, v, Claimed(cfg, v, cfg.pollInterval), 2 * cfg.pollInterval)
  {
    var beat := cfg.pollInterval;
    v := Scene(0, 0, 0, 0, 0, 0, beat);
    run, t := ComeUp(cfg, b, beat);
    run, t := Pass(cfg, b, Start(), run, t, v, Polling, beat, beat, end);
    var before := t;
    run, t := AskOne(cfg, b, Start(), run, t, v, Polling, beat);
    v := v.(wanted := 1);
    OneBeat(cfg, beat, beat);
    run, t := Tock(cfg, b, Start(), run, t, v, beat, 2 * beat);
    run, t := Choose(cfg, b, Start(), run, t, v, 2 * beat);
    StaffedKept(cfg, before, t, end);
    run, t := Pass(cfg, b, Start(), run, t, v, Claimed(cfg, v, beat), 2 * beat, beat + b.L, end);
  }

  /** The batch in line is launched into free slots. */
  lemma Enter(cfg: Config, b: Bounds, s: State, run: seq<Step>, t: State, v: Scene, start: int, due: int, end: int)
    returns (longer: seq<Step>, u: State, w: Scene)
    requires Path(cfg, b, s, run, t) && House(cfg, t, v, Launching(start, v.mid, v.mid, v.hi), due)
    requires v.lo == v.mid < v.hi <= v.lo + cfg.concurrency && Staffed(cfg, t, end)
    ensures w == v.(mid := v.hi, since := t.now, claimed := v.asked)
    ensures Path(cfg, b, s, longer, u) && u.now == t.now && House(cfg, u, w, Polling, due)
    ensures Staffed(cfg, u, end) && (Alone(t) ==> Alone(u))
  {
    w := v.(mid := v.hi, since := t.now, claimed := v.asked);
    longer, u := LaunchAll(cfg, b, s, run, t, v, start, v.mid, due);
    StaffedKept(cfg, t, u, end);
  }

  lemma SlowCommit(cfg: Config, b: Bounds, end: int) returns (run: seq<Step>, t: State, v: Scene)
    requires cfg.concurrency >= 1 && cfg.pollInterval >= 1
    requires end >= cfg.pollInterval + b.L
    ensures Path(cfg, b, Start(), run, t) && t.now == cfg.pollInterval + b.L && Staffed(cfg, t, end)
    ensures v == Scene(0, 0, 1, 0, 0, 0, cfg.pollInterval)
    ensures House(cfg, t, v, Launching(v.asked, 0, 0, 1), 2 * cfg.pollInterval)
  {
    run, t, v := SlowClaim(cfg, b, end);
    var before := t;
    run, t := CommitBatch(cfg, b, Start(), run, t, v, 2 * cfg.pollInterval);
    StaffedKept(cfg, before, t, end);
    v := v.(hi := 1, wanted := 0);
  }

  /** A claim that takes L and a run that takes T. */
  lemma LateAfterSlowClaim(cfg: Config, b: Bounds) returns (run: seq<Step>, s: State)
    requires cfg.concurrency >= 1 && cfg.pollInterval >= 1
    ensures Path(cfg, b, Start(), run, s) && Late(cfg, s, 0, b.T + b.L)
  {
    var end, due := cfg.pollInterval + b.L + b.T, 2 * cfg.pollInterval;
    var v;
    run, s, v := SlowCommit(cfg, b, end);
    run, s, v := Enter(cfg, b, Start(), run, s, v, v.asked, due, end);
    run, s, due := IdleTo(cfg, b, Start(), run, s, v, due, end);
    HouseIsLate(cfg, s, v, due, b.T + b.L);
  }

  // ----- a full house, ever later behind its ticker -----

  /** C jobs have just been launched together; nothing else is asked for. */
  ghost predicate Crowd(cfg: Config, t: State, v: Scene, due: int) {
    House(cfg, t, v, Polling, due) && v.mid == v.hi == v.lo + cfg.concurrency && v.wanted == 0 && v.since == t.now
  }

  /** With nobody waiting and nothing asked for, `asked` says nothing. */
  lemma Reask(cfg: Config, t: State, v: Scene, phase: Phase, due: int, at: int)
    requires House(cfg, t, v, phase, due) && v.mid == v.hi && v.wanted == 0
    ensures House(cfg, t, v.(asked := at), phase, due)
  {
  }

  /** A tick is taken, at its instant or, by a loop that need not be prompt, one beat later. */
  lemma FirstCrowd(cfg: Config, b: Bounds, at: int, end: int) returns (run: seq<Step>, t: State, v: Scene)
    requires cfg.concurrency >= 1 && cfg.pollInterval >= 1
    requires at == cfg.pollInterval || (at == 2 * cfg.pollInterval && !b.prompt)
    requires end >= at && end >= cfg.pollInterval
    ensures Path(cfg, b, Start(), run, t) && t.now == at && Crowd(cfg, t, v, 2 * cfg.pollInterval)
    ensures Staffed(cfg, t, end) && (at <= end - cfg.pollInterval ==> Alone(t))
  {
    var beat, c := cfg.pollInterval, cfg.concurrency;
    v := Scene(0, 0, 0, 0, 0, 0, at);
    run, t := ComeUp(cfg, b, at);
    run, t := Pass(cfg, b, Start(), run, t, v, Polling, beat, at, end);
    OneBeat(cfg, beat, at);
    run, t, v := LineUp(cfg, b, Start(), run, t, v, beat, 2 * beat, c, end);
    run, t, v := Enter(cfg, b, Start(), run, t, v, at, 2 * beat, end);
  }

  /** On a tick n jobs are asked for and claimed; they line up behind those in flight. */
  lemma LineUp(cfg: Config, b: Bounds, s: State, run: seq<Step>, t: State, v: Scene, due: int, next: int, n: nat,
               end: int)
    returns (longer: seq<Step>, u: State, w: Scene)
    requires Path(cfg, b, s, run, t) && House(cfg, t, v, Polling, due) && v.mid == v.hi && v.wanted == 0
    requires 1 <= n <= cfg.concurrency && due <= t.now && NextTick(cfg, due, t.now, next) && Staffed(cfg, t, end)
    ensures w == v.(asked := t.now, hi := v.hi + n)
    ensures Path(cfg, b, s, longer, u) && u.now == t.now && House(cfg, u, w, Launching(t.now, v.hi, v.hi, w.hi), next)
    ensures Staffed(cfg, u, end) && (Alone(t) ==> Alone(u))
  {
    w := v.(asked := t.now);
    Reask(cfg, t, v, Polling, due, t.now);
    longer, u := Ask(cfg, b, s, run, t, w, Polling, due, n);
    longer, u := Poll(cfg, b, s, longer, u, w.(wanted := n), due, next);
    w := w.(hi := w.hi + n);
    StaffedKept(cfg, t, u, end);
  }

  /** All in flight finish, and the batch in line takes their slots. */
  lemma Relieve(cfg: Config, b: Bounds, s: State, run: seq<Step>, t: State, v: Scene, start: int, due: int, end: int)
    returns (longer: seq<Step>, u: State, w: Scene)
    requires Path(cfg, b, s, run, t) && House(cfg, t, v, Launching(start, v.mid, v.mid, v.hi), due)
    requires v.since <= t.now && v.mid < v.hi <= v.mid + cfg.concurrency && Staffed(cfg, t, end)
    ensures w == v.(lo := v.mid, mid := v.hi, since := t.now, claimed := v.asked)
    ensures Path(cfg, b, s, longer, u) && u.now == t.now && House(cfg, u, w, Polling, due)
    ensures Staffed(cfg, u, end) && (Alone(t) ==> Alone(u))
  {
    longer, u := QueueScript.Drain(cfg, b, s, run, t, v, Launching(start, v.mid, v.mid, v.hi), due);
    StaffedKept(cfg, t, u, end);
    longer, u, w := Enter(cfg, b, s, longer, u, v.(lo := v.mid), start, due, end);
  }

  /** On a tick n jobs are claimed behind the crowd, wait until it has run for T, and are launched. */
  lemma Follow(cfg: Config, b: Bounds, s: State, run: seq<Step>, t: State, v: Scene, due: int, next: int, n: nat,
               end: int)
    returns (longer: seq<Step>, u: State, w: Scene)
    requires Path(cfg, b, s, run, t) && House(cfg, t, v, Polling, due)
    requires v.mid == v.hi == v.lo + cfg.concurrency && v.wanted == 0
    requires 1 <= n <= cfg.concurrency && due <= t.now && NextTick(cfg, due, t.now, next)
    requires Staffed(cfg, t, end) && v.since <= t.now <= v.since + b.T <= end
    ensures Path(cfg, b, s, longer, u) && u.now == v.since + b.T && Staffed(cfg, u, end)
    ensures Alone(t) && u.now <= end - cfg.pollInterval ==> Alone(u)
    ensures w == Scene(v.hi, v.hi + n, v.hi + n, 0, t.now, u.now, t.now) && House(cfg, u, w, Polling, next)
  {
    longer, u, w := LineUp(cfg, b, s, run, t, v, due, next, n, end);
    longer, u := Pass(cfg, b, s, longer, u, w, Launching(t.now, w.mid, w.mid, w.hi), next, v.since + b.T, end);
    longer, u, w := Relieve(cfg, b, s, longer, u, w, t.now, next, end);
  }

  /** Each round of C jobs starts T after the one before, while ticks come every PollInterval: as long as
      the next tick is still to come, another round brings it nearer. */
  lemma {:induction false} Rounds(cfg: Config, b: Bounds, run: seq<Step>, t: State, v: Scene, due: int)
    returns (longer: seq<Step>, u: State, w: Scene, next: int)
    requires cfg.concurrency >= 1 && 1 <= cfg.pollInterval < b.T
    requires Path(cfg, b, Start(), run, t) && Alone(t) && Crowd(cfg, t, v, due) && due <= t.now + cfg.pollInterval
    ensures Path(cfg, b, Start(), longer, u) && Alone(u) && Crowd(cfg, u, w, next) && next <= u.now
    decreases due - t.now
  {
    longer, u, w, next := run, t, v, due;
    if t.now < due {
      var end := t.now + b.T + cfg.pollInterval;
      longer, u := Pass(cfg, b, Start(), run, t, v, Polling, due, due, end);
      OneBeat(cfg, due, due);
      next := due + cfg.pollInterval;
      longer, u, w := Follow(cfg, b, Start(), longer, u, v, due, next, cfg.concurrency, end);
      longer, u, w, next := Rounds(cfg, b, longer, u, w, next);
    }
  }

  /** A tick is there as the crowd starts: one more job is claimed, waits for T and runs for T. */
  lemma LateBehindCrowd(cfg: Config, b: Bounds, run: seq<Step>, t: State, v: Scene, due: int)
    returns (longer: seq<Step>, s: State, id: JobId)
    requires cfg.concurrency >= 1 && cfg.pollInterval >= 1
    requires Path(cfg, b, Start(), run, t) && Crowd(cfg, t, v, due) && due <= t.now
    requires Staffed(cfg, t, t.now + 2 * b.T)
    ensures Path(cfg, b, Start(), longer, s) && Late(cfg, s, id, 2 * b.T)
  {
    var end, next := t.now + 2 * b.T, After(due, t.now, cfg.pollInterval);
    var w;
    longer, s, w := Follow(cfg, b, Start(), run, t, v, due, next, 1, end);
    longer, s, next := IdleTo(cfg, b, Start(), longer, s, w, next, end);
    HouseIsLate(cfg, s, w, next, 2 * b.T);
    id := w.lo;
  }

  lemma LateAfterTwoRuns(cfg: Config, b: Bounds) returns (run: seq<Step>, s: State, id: JobId)
    requires cfg.concurrency >= 1 && cfg.pollInterval >= 1 && !Spaced(cfg, b)
    ensures Path(cfg, b, Start(), run, s) && Late(cfg, s, id, 2 * b.T)
  {
    var v, due := Scene(0, 0, 0, 0, 0, 0, 0), 2 * cfg.pollInterval;
    if b.prompt {
      run, s, v := FirstCrowd(cfg, b, cfg.pollInterval, due);
      run, s, v, due := Rounds(cfg, b, run, s, v, due);
    } else {
      run, s, v := FirstCrowd(cfg, b, due, due + 2 * b.T);
    }
    run, s, id := LateBehindCrowd(cfg, b, run, s, v, due);
  }

  /** Every bound is reached: some timely run has a worker on a job claimed T + Delay ago. */
  lemma BoundIsReached(cfg: Config, b: Bounds) returns (run: seq<Step>, s: State, id: JobId)
    requires cfg.concurrency >= 1 && cfg.pollInterval >= 1
    ensures Path(cfg, b, Start(), run, s) && Late(cfg, s, id, b.T + Delay(cfg, b))
  {
    if Delay(cfg, b) == b.L {
      run, s := LateAfterSlowClaim(cfg, b);
      id := 0;
    } else {
      run, s, id := LateAfterTwoRuns(cfg, b);
    }
  }

  // ----- the reset of a live job -----

  lemma LateResetIsNotGentle(cfg: Config, s: State, id: JobId, span: int)
    requires Late(cfg, s, id, span) && cfg.stuckTimeout < span
    ensures Enabled(cfg, s, Reset(s.now)) && !Gentle(cfg, s, Reset(s.now))
  {
    assert Owning(s.live[id]) && s.live[id].job == id;
  }

  lemma {:induction false} UngentleEnd(cfg: Config, b: Bounds, s: State, run: seq<Step>, t: State, step: Step)
    requires Path(cfg, b, s, run, t) && Enabled(cfg, t, step) && !step.Tick? && !Gentle(cfg, t, step)
    ensures IsRun(cfg, s, run + [step]) && TimelyRun(cfg, b, s, run + [step]) && !GentleRun(cfg, s, run + [step])
    decreases |run|
  {
    if run == [] {
      assert run + [step] == [step] && [step][1..] == [];
    } else {
      assert Path(cfg, b, Do(cfg, s, run[0]), run[1..], t);
      UngentleEnd(cfg, b, Do(cfg, s, run[0]), run[1..], t, step);
      assert (run + [step])[1..] == run[1..] + [step];
    }
  }

  /** This run, if it is timely and starts empty, resets no live job. */
  ghost predicate Spares(cfg: Config, b: Bounds, s: State, run: seq<Step>) {
    Init(s) && IsRun(cfg, s, run) && TimelyRun(cfg, b, s, run) ==> GentleRun(cfg, s, run)
  }

  /** For any number of slots, any poll interval and any bounds: StuckJobTimeout >= T + Delay if and only
      if no timely run from an empty system ever resets a live job. */
  lemma BoundIsExact(cfg: Config, b: Bounds)
    requires cfg.concurrency >= 1 && cfg.pollInterval >= 1
    ensures cfg.stuckTimeout >= b.T + Delay(cfg, b) <==> forall s, run :: Spares(cfg, b, s, run)
  {
    if cfg.stuckTimeout >= b.T + Delay(cfg, b) {
      forall s, run
        ensures Spares(cfg, b, s, run)
      {
        if Init(s) && IsRun(cfg, s, run) && TimelyRun(cfg, b, s, run) { TimedExclusion(cfg, b, s, run); }
      }
    } else {
      var run, t, id := BoundIsReached(cfg, b);
      LateResetIsNotGentle(cfg, t, id, b.T + Delay(cfg, b));
      UngentleEnd(cfg, b, Start(), run, t, Reset(t.now));
      assert !Spares(cfg, b, Start(), run + [Reset(t.now)]);
    }
  }
}
