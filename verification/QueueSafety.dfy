/** What every step of the queue keeps, with no assumption on timing: row shapes, lock sets, and the
    bookkeeping of handles and slots. */
module QueueSafety {
  import opened Domain
  import opened JobTable
  import opened Queue

  // ----- rows -----

  predicate RowOk(r: Row) {
    && (r.status == Running <==> r.runningSince.Some?)
    && (r.status == Completed ==> r.completedAt.Some?)
  }

  ghost predicate RowsOk(s: State) {
    forall id :: id in s.rows ==> RowOk(s.rows[id])
  }

  // ----- claim transactions -----

  ghost predicate TxOk(cfg: Config, s: State, p: ProcId)
    requires p in s.procs && s.procs[p].phase.Locked?
  {
    var tx := s.procs[p].phase;
    && Distinct(tx.ids)
    && |tx.ids| <= cfg.concurrency
    && forall id :: id in tx.ids ==>
         id in s.rows && id in tx.snaps && s.rows[id] == tx.snaps[id] && Due(s.rows[id], tx.start)
  }

  ghost predicate LocksOk(cfg: Config, s: State) {
    && (forall p :: p in s.procs && s.procs[p].phase.Locked? ==> TxOk(cfg, s, p))
    && (forall p, q, id :: Holds(s, p, id) && Holds(s, q, id) ==> p == q)
  }

  // ----- handles and slots -----

  predicate IsWaiting(s: State, p: ProcId, h: HandleId) {
    p in s.procs && s.procs[p].phase.Launching? && s.procs[p].phase.next <= h < s.procs[p].phase.end
  }

  predicate StartedBy(l: Handle, t: int) {
    !l.stage.Waiting? && l.stage.startedAt <= t
  }

  ghost predicate HandleOk(s: State, h: HandleId)
    requires h in s.live
  {
    var l := s.live[h];
    && h < s.nextHandle
    && l.proc in s.procs
    && l.claimedAt <= s.now
    && (l.stage.Waiting? <==> IsWaiting(s, l.proc, h))
    && (!l.stage.Waiting? ==> l.claimedAt <= l.stage.startedAt <= s.now)
    && (s.procs[l.proc].phase.Launching? ==>
          && h < s.procs[l.proc].phase.end
          && (h < s.procs[l.proc].phase.first ==> StartedBy(l, s.procs[l.proc].phase.start))
          && (h >= s.procs[l.proc].phase.first ==> l.claimedAt == s.procs[l.proc].phase.start))
    && (s.procs[l.proc].phase.Begun? || s.procs[l.proc].phase.Locked? ==>
          StartedBy(l, s.procs[l.proc].phase.start))
  }

  ghost predicate BatchOk(cfg: Config, s: State, p: ProcId)
    requires p in s.procs
  {
    var phase := s.procs[p].phase;
    && (phase.Begun? || phase.Locked? || phase.Launching? ==> phase.start <= s.now)
    && (phase.Launching? ==>
          && phase.first <= phase.next <= phase.end <= s.nextHandle
          && phase.end - phase.first <= cfg.concurrency
          && forall h :: phase.next <= h < phase.end ==> h in s.live && s.live[h].proc == p)
    && (phase.Stopped? ==> s.procs[p].slots == 0)
  }

  /** The handles of p that occupy a slot. */
  function Flying(s: State, p: ProcId): set<HandleId> {
    set h | h in s.live && s.live[h].proc == p && !s.live[h].stage.Waiting?
  }

  ghost predicate SlotsOk(cfg: Config, s: State, p: ProcId)
    requires p in s.procs
  {
    s.procs[p].slots == |Flying(s, p)| <= cfg.concurrency
  }

  ghost predicate HandlesOk(cfg: Config, s: State) {
    && (forall h :: h in s.live ==> HandleOk(s, h))
    && (forall p :: p in s.procs ==> BatchOk(cfg, s, p))
  }

  ghost predicate Sound(cfg: Config, s: State) {
    && RowsOk(s)
    && LocksOk(cfg, s)
    && HandlesOk(cfg, s)
    && (forall p :: p in s.procs ==> SlotsOk(cfg, s, p))
  }

  // ----- preservation -----

  lemma RowsOkStep(cfg: Config, s: State, step: Step)
    requires RowsOk(s) && Enabled(cfg, s, step)
    ensures RowsOk(Do(cfg, s, step))
  {
  }

  /** Lock invariants survive any change that only ends transactions and leaves the rows that stay
      locked alone. */
  lemma LocksFrame(cfg: Config, s: State, s': State)
    requires LocksOk(cfg, s)
    requires forall p :: p in s'.procs && s'.procs[p].phase.Locked? ==>
               p in s.procs && s'.procs[p].phase == s.procs[p].phase
    requires forall p, id :: Holds(s', p, id) ==> id in s'.rows && (id in s.rows ==> s'.rows[id] == s.rows[id])
    ensures LocksOk(cfg, s')
  {
    forall p | p in s'.procs && s'.procs[p].phase.Locked?
      ensures TxOk(cfg, s', p)
    {
      assert TxOk(cfg, s, p);
      assert forall id :: id in s'.procs[p].phase.ids ==> Holds(s', p, id);
    }
    assert forall p, id :: Holds(s', p, id) ==> Holds(s, p, id);
  }

  lemma LocksOkSelect(cfg: Config, s: State, p: ProcId, ids: seq<JobId>)
    requires LocksOk(cfg, s) && Enabled(cfg, s, Select(p, ids))
    ensures LocksOk(cfg, Do(cfg, s, Select(p, ids)))
  {
    var s' := Do(cfg, s, Select(p, ids));
    forall q | q in s'.procs && s'.procs[q].phase.Locked?
      ensures TxOk(cfg, s', q)
    {
      if q != p { assert TxOk(cfg, s, q); }
    }
    assert forall q, id :: q != p ==> (Holds(s', q, id) <==> Holds(s, q, id));
    assert forall q, id :: Holds(s', p, id) && Holds(s, q, id) ==> id in LockedIds(s) by {
      forall q, id | Holds(s', p, id) && Holds(s, q, id) ensures id in LockedIds(s) {
        assert IsLocked(s, id);
      }
    }
  }

  /** The rows a transaction holds are claimable, so no reset reaches them; marks wait for the lock;
      and another transaction's claim holds other rows. */
  lemma LockedRowsUntouched(cfg: Config, s: State, step: Step, q: ProcId, id: JobId)
    requires LocksOk(cfg, s) && Enabled(cfg, s, step) && Holds(s, q, id)
    requires (step.Commit? || step.CommitLost?) ==> step.p != q
    ensures id in s.rows && id in Do(cfg, s, step).rows && Do(cfg, s, step).rows[id] == s.rows[id]
    ensures Claimable(s.rows[id])
  {
    assert TxOk(cfg, s, q) && IsLocked(s, id);
    match step
    case Commit(p) => assert !Holds(s, p, id);
    case CommitLost(p) => assert !Holds(s, p, id);
    case _ =>
  }

  lemma LocksOkStep(cfg: Config, s: State, step: Step)
    requires LocksOk(cfg, s) && Enabled(cfg, s, step)
    ensures LocksOk(cfg, Do(cfg, s, step))
  {
    if step.Select? {
      LocksOkSelect(cfg, s, step.p, step.ids);
    } else {
      var s' := Do(cfg, s, step);
      forall q, id | Holds(s', q, id)
        ensures id in s'.rows && (id in s.rows ==> s'.rows[id] == s.rows[id])
      {
        assert Holds(s, q, id);
        LockedRowsUntouched(cfg, s, step, q, id);
      }
      LocksFrame(cfg, s, s');
    }
  }

  predicate ChangesPhaseOnly(step: Step) {
    step.Begin? || step.Select? || step.Rollback? || step.CommitLost? || step.EndBatch? || step.Drain? || step.Stop?
  }

  lemma HandleOkPhaseStep(cfg: Config, s: State, step: Step, h: HandleId)
    requires ChangesPhaseOnly(step) && Enabled(cfg, s, step)
    requires h in s.live && HandleOk(s, h) && BatchOk(cfg, s, step.p)
    ensures HandleOk(Do(cfg, s, step), h)
  {
  }

  lemma HandleOkCommit(cfg: Config, s: State, p: ProcId, h: HandleId)
    requires Enabled(cfg, s, Commit(p)) && BatchOk(cfg, s, p)
    requires h in s.live ==> HandleOk(s, h)
    requires h in Do(cfg, s, Commit(p)).live
    ensures HandleOk(Do(cfg, s, Commit(p)), h)
  {
  }

  lemma HandleOkOther(cfg: Config, s: State, step: Step, h: HandleId)
    requires !ChangesPhaseOnly(step) && !step.Commit? && Enabled(cfg, s, step)
    requires h in s.live && HandleOk(s, h) && h in Do(cfg, s, step).live
    requires step.Launch? ==> BatchOk(cfg, s, step.p)
    ensures HandleOk(Do(cfg, s, step), h)
  {
  }

  lemma HandleOkStep(cfg: Config, s: State, step: Step, h: HandleId)
    requires HandlesOk(cfg, s) && Enabled(cfg, s, step) && h in Do(cfg, s, step).live
    ensures HandleOk(Do(cfg, s, step), h)
  {
    if step.Commit? {
      HandleOkCommit(cfg, s, step.p, h);
    } else if ChangesPhaseOnly(step) {
      HandleOkPhaseStep(cfg, s, step, h);
    } else {
      HandleOkOther(cfg, s, step, h);
    }
  }

  lemma OnlyCommitAdds(cfg: Config, s: State, step: Step, h: HandleId)
    requires Enabled(cfg, s, step) && h in Do(cfg, s, step).live && h !in s.live
    ensures step.Commit?
  {
  }

  lemma BatchOkCommit(cfg: Config, s: State, q: ProcId, p: ProcId)
    requires p in s.procs && BatchOk(cfg, s, p)
    requires LocksOk(cfg, s) && Enabled(cfg, s, Commit(q))
    requires HandlesKnown(s)
    ensures BatchOk(cfg, Do(cfg, s, Commit(q)), p)
  {
    assert TxOk(cfg, s, q);
  }

  lemma BatchOkPhaseStep(cfg: Config, s: State, step: Step, p: ProcId)
    requires p in s.procs && BatchOk(cfg, s, p)
    requires ChangesPhaseOnly(step) && Enabled(cfg, s, step)
    ensures BatchOk(cfg, Do(cfg, s, step), p)
  {
  }

  lemma BatchOkOther(cfg: Config, s: State, step: Step, p: ProcId)
    requires p in s.procs ==> BatchOk(cfg, s, p)
    requires step.Release? && step.h in s.live ==> HandleOk(s, step.h)
    requires !step.Commit? && !ChangesPhaseOnly(step) && Enabled(cfg, s, step) && p in Do(cfg, s, step).procs
    ensures BatchOk(cfg, Do(cfg, s, step), p)
  {
  }

  lemma BatchOkStep(cfg: Config, s: State, step: Step, p: ProcId)
    requires HandlesOk(cfg, s)
    requires LocksOk(cfg, s) && Enabled(cfg, s, step) && p in Do(cfg, s, step).procs
    ensures BatchOk(cfg, Do(cfg, s, step), p)
  {
    assert HandlesKnown(s);
    if step.Commit? {
      BatchOkCommit(cfg, s, step.p, p);
    } else if ChangesPhaseOnly(step) {
      BatchOkPhaseStep(cfg, s, step, p);
    } else {
      BatchOkOther(cfg, s, step, p);
    }
  }

  lemma HandlesOkStep(cfg: Config, s: State, step: Step)
    requires HandlesOk(cfg, s) && LocksOk(cfg, s) && Enabled(cfg, s, step)
    ensures HandlesOk(cfg, Do(cfg, s, step))
  {
    var s' := Do(cfg, s, step);
    forall h | h in s'.live ensures HandleOk(s', h) { HandleOkStep(cfg, s, step, h); }
    forall p | p in s'.procs ensures BatchOk(cfg, s', p) { BatchOkStep(cfg, s, step, p); }
  }

  ghost predicate HandlesKnown(s: State) {
    forall h :: h in s.live ==> h < s.nextHandle && s.live[h].proc in s.procs
  }

  lemma FlyingCommit(cfg: Config, s: State, q: ProcId, p: ProcId)
    requires HandlesKnown(s) && Enabled(cfg, s, Commit(q))
    ensures Flying(Do(cfg, s, Commit(q)), p) == Flying(s, p)
  {
  }

  lemma FliesKept(cfg: Config, s: State, step: Step, p: ProcId, h: HandleId)
    requires !step.Commit? && Enabled(cfg, s, step) && p in Do(cfg, s, step).procs
    requires step.Launch? ==> s.live[s.procs[step.p].phase.next].proc != p
    requires step.Release? ==> p != s.live[step.h].proc
    ensures h in Flying(Do(cfg, s, step), p) <==> h in Flying(s, p)
  {
  }

  lemma FlyingUnchanged(cfg: Config, s: State, step: Step, p: ProcId)
    requires HandlesKnown(s) && Enabled(cfg, s, step) && p in Do(cfg, s, step).procs
    requires step.Launch? ==> s.live[s.procs[step.p].phase.next].proc != p
    requires step.Release? ==> p != s.live[step.h].proc
    ensures Flying(Do(cfg, s, step), p) == Flying(s, p)
  {
    if step.Commit? {
      FlyingCommit(cfg, s, step.p, p);
    } else {
      forall h ensures h in Flying(Do(cfg, s, step), p) <==> h in Flying(s, p) { FliesKept(cfg, s, step, p, h); }
    }
  }

  lemma FlyingLaunch(cfg: Config, s: State, p: ProcId)
    requires Enabled(cfg, s, Launch(p)) && HandleOk(s, s.procs[p].phase.next) && BatchOk(cfg, s, p)
    requires SlotsOk(cfg, s, p)
    ensures SlotsOk(cfg, Do(cfg, s, Launch(p)), p)
  {
    var h := s.procs[p].phase.next;
    assert Flying(Do(cfg, s, Launch(p)), p) == Flying(s, p) + {h};
  }

  lemma FlyingRelease(cfg: Config, s: State, h: HandleId)
    requires Enabled(cfg, s, Release(h)) && SlotsOk(cfg, s, s.live[h].proc)
    ensures SlotsOk(cfg, Do(cfg, s, Release(h)), s.live[h].proc)
  {
    var p := s.live[h].proc;
    assert Flying(Do(cfg, s, Release(h)), p) == Flying(s, p) - {h};
  }

  lemma SlotsOkStep(cfg: Config, s: State, step: Step, p: ProcId)
    requires p in s.procs ==> SlotsOk(cfg, s, p)
    requires HandlesOk(cfg, s) && Enabled(cfg, s, step) && p in Do(cfg, s, step).procs
    ensures SlotsOk(cfg, Do(cfg, s, step), p)
  {
    assert HandlesKnown(s);
    if step.Launch? {
      assert BatchOk(cfg, s, step.p);
      if step.p == p { FlyingLaunch(cfg, s, p); return; }
    } else if step.Release? && s.live[step.h].proc == p {
      FlyingRelease(cfg, s, step.h);
      return;
    }
    FlyingUnchanged(cfg, s, step, p);
    if step.StartProc? && step.p == p {
      assert Flying(s, p) == {};
    }
  }

  lemma SoundStep(cfg: Config, s: State, step: Step)
    requires Sound(cfg, s) && Enabled(cfg, s, step)
    ensures Sound(cfg, Do(cfg, s, step))
  {
    RowsOkStep(cfg, s, step);
    LocksOkStep(cfg, s, step);
    HandlesOkStep(cfg, s, step);
    var s' := Do(cfg, s, step);
    forall p | p in s'.procs ensures SlotsOk(cfg, s', p) { SlotsOkStep(cfg, s, step, p); }
  }

  lemma {:induction false} SoundRun(cfg: Config, s: State, run: seq<Step>)
    requires Sound(cfg, s) && IsRun(cfg, s, run)
    ensures Sound(cfg, Exec(cfg, s, run))
    decreases |run|
  {
    if run != [] {
      SoundStep(cfg, s, run[0]);
      SoundRun(cfg, Do(cfg, s, run[0]), run[1..]);
    }
  }

  /** Everything a step can do to an existing row, in any reachable state. */
  lemma RowChange(cfg: Config, s: State, step: Step, id: JobId)
    requires LocksOk(cfg, s) && Enabled(cfg, s, step) && id in s.rows
    ensures id in Do(cfg, s, step).rows
    ensures Do(cfg, s, step).rows[id] ==
            if Claims(s, step, id) then AsRunning(s.rows[id], s.procs[step.p].phase.start)
            else if Marks(s, step, id) then MarkedRow(s.rows[id], MarkOf(s, step), s.now)
            else if Resets(cfg, s, step, id) then AsReset(s.rows[id], s.now)
            else s.rows[id]
    ensures Claims(s, step, id) ==> Due(s.rows[id], s.procs[step.p].phase.start)
  {
    if Claims(s, step, id) {
      assert TxOk(cfg, s, step.p);
    }
  }

  lemma RowAppears(cfg: Config, s: State, step: Step, id: JobId)
    requires Enabled(cfg, s, step) && id !in s.rows
    ensures id in Do(cfg, s, step).rows <==> step.Enqueue? && step.id == id
    ensures step.Enqueue? && step.id == id ==>
              Do(cfg, s, step).rows[id] == NewJob(step.eventId, step.issueKey, step.target, cfg.maxAttempts, step.at)
  {
  }
}
