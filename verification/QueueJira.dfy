/** Effects on Jira: a completed row was really moved, and a job is moved at most once unless the
    news of a success is lost. */
module QueueJira {
  import opened Domain
  import opened Queue
  import opened QueueSafety
  import opened QueueOwnership
  import opened QueueAccounting
  import Executor

  // ----- handles agree with their row on what the job is -----

  predicate SameJob(a: Row, b: Row) {
    && a.eventId == b.eventId && a.issueKey == b.issueKey
    && a.target == b.target && a.maxAttempts == b.maxAttempts
  }

  predicate OutcomeOk(cfg: Config, l: Handle) {
    l.stage.Executed? ==>
      var id := Executor.TransitionId(cfg.executor, l.snap.target);
      && (l.stage.outcome.Skipped? <==> id == "")
      && (l.stage.outcome.Moved? ==> l.stage.outcome.transitionId == id)
  }

  ghost predicate JobOk(cfg: Config, s: State, h: HandleId)
    requires h in s.live
  {
    var l := s.live[h];
    && l.job in s.rows && SameJob(l.snap, s.rows[l.job])
    && OutcomeOk(cfg, l)
  }

  ghost predicate JobsOk(cfg: Config, s: State) {
    forall h :: h in s.live ==> JobOk(cfg, s, h)
  }

  /** What a job is never changes: event, issue key, target state and attempt limit are fixed. */
  lemma IdentityStep(cfg: Config, s: State, step: Step, id: JobId)
    requires LocksOk(cfg, s) && Enabled(cfg, s, step) && id in s.rows
    ensures id in Do(cfg, s, step).rows && SameJob(s.rows[id], Do(cfg, s, step).rows[id])
  {
    RowChange(cfg, s, step, id);
  }

  lemma JobOkNew(cfg: Config, s: State, p: ProcId, h: HandleId)
    requires LocksOk(cfg, s) && Enabled(cfg, s, Commit(p))
    requires h in Do(cfg, s, Commit(p)).live && h !in s.live
    ensures JobOk(cfg, Do(cfg, s, Commit(p)), h)
  {
    assert TxOk(cfg, s, p);
    var tx := s.procs[p].phase;
    assert tx.ids[h - s.nextHandle] in tx.ids;
  }

  lemma SnapFixed(cfg: Config, s: State, step: Step, h: HandleId)
    requires Enabled(cfg, s, step) && h in s.live && h < s.nextHandle && h in Do(cfg, s, step).live
    ensures Do(cfg, s, step).live[h].job == s.live[h].job && Do(cfg, s, step).live[h].snap == s.live[h].snap
    ensures OutcomeOk(cfg, s.live[h]) ==> OutcomeOk(cfg, Do(cfg, s, step).live[h])
  {
  }

  lemma JobOkOld(cfg: Config, s: State, step: Step, h: HandleId)
    requires LocksOk(cfg, s) && Enabled(cfg, s, step) && h in s.live && h < s.nextHandle && JobOk(cfg, s, h)
    requires h in Do(cfg, s, step).live
    ensures JobOk(cfg, Do(cfg, s, step), h)
  {
    SnapFixed(cfg, s, step, h);
    IdentityStep(cfg, s, step, s.live[h].job);
  }

  lemma JobsOkStep(cfg: Config, s: State, step: Step)
    requires LocksOk(cfg, s) && HandlesOk(cfg, s) && JobsOk(cfg, s) && Enabled(cfg, s, step)
    ensures JobsOk(cfg, Do(cfg, s, step))
  {
    var s' := Do(cfg, s, step);
    forall h | h in s'.live
      ensures JobOk(cfg, s', h)
    {
      if h in s.live {
        assert HandleOk(s, h) && JobOk(cfg, s, h);
        JobOkOld(cfg, s, step, h);
      } else {
        OnlyCommitAdds(cfg, s, step, h);
        JobOkNew(cfg, s, step.p, h);
      }
    }
  }

  // ----- events -----

  /** An execution of this job in which a transition was configured and sent, and Jira confirmed it. */
  ghost function MovedOf(cfg: Config, id: JobId): (State, Step) -> bool {
    (s: State, step: Step) =>
      && step.Execute? && step.h in s.live && s.live[step.h].job == id
      && var target := s.live[step.h].snap.target;
         && !Executor.NotConfigured(cfg.executor, target) && Executor.Datable(cfg.executor, target)
         && step.answers.transition.Success?
  }

  lemma MovedIsOutcome(cfg: Config, s: State, step: Step, id: JobId)
    ensures MovedOf(cfg, id)(s, step) <==>
            && step.Execute? && step.h in s.live && s.live[step.h].job == id
            && Executor.OutcomeOf(cfg.executor, s.live[step.h].snap.target, step.answers).Moved?
  {
    if step.Execute? && step.h in s.live {
      Executor.OutcomeExactly(cfg.executor, s.live[step.h].snap.target, step.answers);
    }
  }

  /** The handle knows of a success nobody has recorded yet. */
  predicate KnowsSuccess(s: State, h: HandleId, id: JobId) {
    h in s.live && s.live[h].job == id && s.live[h].stage.Executed? && s.live[h].stage.outcome.Moved?
  }

  /** A worker that knows of a success crashes, or its mark is not applied. */
  ghost predicate LosesSuccess(s: State, step: Step, id: JobId) {
    || (step.Settle? && !step.applied && KnowsSuccess(s, step.h, id))
    || (step.Crash? && exists h :: KnowsSuccess(s, h, id) && s.live[h].proc == step.p)
  }

  ghost function LostOf(id: JobId): (State, Step) -> bool {
    (s: State, step: Step) => LosesSuccess(s, step, id)
  }

  ghost predicate Known(s: State, id: JobId) {
    exists h :: KnowsSuccess(s, h, id)
  }

  ghost predicate Achieved(s: State, id: JobId) {
    (id in s.rows && s.rows[id].status == Completed) || Known(s, id)
  }

  predicate Configured(cfg: Config, s: State, id: JobId) {
    id in s.rows ==> !Executor.NotConfigured(cfg.executor, s.rows[id].target)
  }

  // ----- one step -----

  lemma KnownIsRunning(s: State, h: HandleId, id: JobId)
    requires Owned(s) && KnowsSuccess(s, h, id)
    ensures id in s.rows && s.rows[id].status == Running
    ensures forall g :: IsOwner(s, g) && s.live[g].job == id ==> g == h
  {
    assert IsOwner(s, h) && OwnsRow(s, h);
  }

  /** Steps other than Execute, Settle and Crash neither create nor destroy knowledge. */
  lemma KnowledgeKept(cfg: Config, s: State, step: Step, h: HandleId, id: JobId)
    requires HandlesOk(cfg, s) && Enabled(cfg, s, step)
    requires !step.Execute? && !step.Settle? && !step.Crash?
    ensures KnowsSuccess(Do(cfg, s, step), h, id) <==> KnowsSuccess(s, h, id)
  {
    if step.Launch? {
      assert BatchOk(cfg, s, step.p);
      assert HandleOk(s, s.procs[step.p].phase.next);
    }
    if h in s.live { assert HandleOk(s, h); }
  }

  lemma AchievedQuiet(cfg: Config, s: State, step: Step, id: JobId)
    requires Sound(cfg, s) && Enabled(cfg, s, step)
    requires !step.Execute? && !step.Settle? && !step.Crash?
    ensures Achieved(Do(cfg, s, step), id) <==> Achieved(s, id)
  {
    var s' := Do(cfg, s, step);
    forall h ensures KnowsSuccess(s', h, id) <==> KnowsSuccess(s, h, id) { KnowledgeKept(cfg, s, step, h, id); }
    if id in s.rows { RowChange(cfg, s, step, id); } else { RowAppears(cfg, s, step, id); }
  }

  lemma AchievedExecute(cfg: Config, s: State, step: Step, id: JobId)
    requires Owned(s) && Enabled(cfg, s, step) && step.Execute?
    ensures One(MovedOf(cfg, id)(s, step)) + One(Achieved(s, id)) == One(Achieved(Do(cfg, s, step), id))
  {
    var s' := Do(cfg, s, step);
    assert forall h :: h != step.h ==> (KnowsSuccess(s', h, id) <==> KnowsSuccess(s, h, id));
    MovedIsOutcome(cfg, s, step, id);
    assert KnowsSuccess(s', step.h, id) <==> MovedOf(cfg, id)(s, step);
    assert !KnowsSuccess(s, step.h, id);
    if MovedOf(cfg, id)(s, step) {
      assert IsOwner(s, step.h) && OwnsRow(s, step.h);
      forall h | KnowsSuccess(s, h, id) ensures false { assert IsOwner(s, h); }
    }
  }

  lemma AchievedSettle(cfg: Config, s: State, step: Step, id: JobId)
    requires LocksOk(cfg, s) && Owned(s) && JobsOk(cfg, s) && Configured(cfg, s, id)
    requires Enabled(cfg, s, step) && step.Settle?
    ensures One(Achieved(s, id)) == One(Achieved(Do(cfg, s, step), id)) + One(LosesSuccess(s, step, id))
  {
    var s' := Do(cfg, s, step);
    assert forall h :: h != step.h ==> (KnowsSuccess(s', h, id) <==> KnowsSuccess(s, h, id));
    assert !KnowsSuccess(s', step.h, id);
    assert IsOwner(s, step.h) && OwnsRow(s, step.h) && JobOk(cfg, s, step.h);
    if s.live[step.h].job == id {
      forall h | h != step.h ensures !KnowsSuccess(s, h, id) { assert KnowsSuccess(s, h, id) ==> IsOwner(s, h); }
      assert Known(s, id) <==> KnowsSuccess(s, step.h, id);
      assert !Known(s', id);
    } else {
      assert Known(s', id) <==> Known(s, id);
    }
  }

  lemma AchievedCrash(cfg: Config, s: State, step: Step, id: JobId)
    requires Owned(s) && Enabled(cfg, s, step) && step.Crash?
    ensures One(Achieved(s, id)) == One(Achieved(Do(cfg, s, step), id)) + One(LosesSuccess(s, step, id))
  {
    var s' := Do(cfg, s, step);
    assert forall h :: KnowsSuccess(s', h, id) <==> KnowsSuccess(s, h, id) && s.live[h].proc != step.p;
    if LosesSuccess(s, step, id) {
      var h :| KnowsSuccess(s, h, id) && s.live[h].proc == step.p;
      KnownIsRunning(s, h, id);
      assert forall g :: KnowsSuccess(s, g, id) ==> IsOwner(s, g);
    }
  }

  lemma AchievedStep(cfg: Config, s: State, step: Step, id: JobId)
    requires Sound(cfg, s) && Owned(s) && JobsOk(cfg, s) && Enabled(cfg, s, step) && Configured(cfg, s, id)
    ensures One(MovedOf(cfg, id)(s, step)) + One(Achieved(s, id))
            == One(Achieved(Do(cfg, s, step), id)) + One(LosesSuccess(s, step, id))
  {
    if step.Execute? {
      AchievedExecute(cfg, s, step, id);
    } else if step.Settle? {
      AchievedSettle(cfg, s, step, id);
    } else if step.Crash? {
      AchievedCrash(cfg, s, step, id);
    } else {
      AchievedQuiet(cfg, s, step, id);
    }
  }

  // ----- runs -----

  lemma {:induction false} TargetFixed(cfg: Config, s: State, run: seq<Step>, id: JobId)
    requires Sound(cfg, s) && IsRun(cfg, s, run) && id in s.rows
    ensures id in Exec(cfg, s, run).rows && SameJob(s.rows[id], Exec(cfg, s, run).rows[id])
    decreases |run|
  {
    if run != [] {
      IdentityStep(cfg, s, run[0], id);
      SoundStep(cfg, s, run[0]);
      TargetFixed(cfg, Do(cfg, s, run[0]), run[1..], id);
    }
  }

  lemma {:induction false} AchievedRun(cfg: Config, s: State, run: seq<Step>, id: JobId)
    requires Sound(cfg, s) && Owned(s) && JobsOk(cfg, s) && IsRun(cfg, s, run) && GentleRun(cfg, s, run)
    requires Configured(cfg, Exec(cfg, s, run), id)
    ensures Count(cfg, s, run, MovedOf(cfg, id)) + One(Achieved(s, id))
            == One(Achieved(Exec(cfg, s, run), id)) + Count(cfg, s, run, LostOf(id))
    decreases |run|
  {
    if run != [] {
      if id in s.rows { TargetFixed(cfg, s, run, id); }
      AchievedStep(cfg, s, run[0], id);
      SoundStep(cfg, s, run[0]);
      OwnedStep(cfg, s, run[0]);
      JobsOkStep(cfg, s, run[0]);
      AchievedRun(cfg, Do(cfg, s, run[0]), run[1..], id);
    }
  }

  /** With no live job reset, the successful transitions seen for a configured job are exactly the
      lost ones plus one if the row is completed or a worker still knows: at most one plus the lost. */
  lemma TransitionsSeen(cfg: Config, s: State, run: seq<Step>, id: JobId)
    requires Init(s) && IsRun(cfg, s, run) && GentleRun(cfg, s, run)
    requires Configured(cfg, Exec(cfg, s, run), id)
    ensures Count(cfg, s, run, MovedOf(cfg, id))
            == Count(cfg, s, run, LostOf(id)) + One(Achieved(Exec(cfg, s, run), id))
    ensures Count(cfg, s, run, MovedOf(cfg, id)) <= 1 + Count(cfg, s, run, LostOf(id))
  {
    AchievedRun(cfg, s, run, id);
  }

  // ----- completed means moved, in any run at all -----

  lemma EvidenceSettle(cfg: Config, s: State, step: Step, id: JobId)
    requires JobsOk(cfg, s) && Enabled(cfg, s, step) && step.Settle? && Configured(cfg, s, id)
    requires Achieved(Do(cfg, s, step), id)
    ensures Achieved(s, id)
  {
    var s' := Do(cfg, s, step);
    assert JobOk(cfg, s, step.h);
    if Known(s', id) {
      var h :| KnowsSuccess(s', h, id);
      assert KnowsSuccess(s, h, id);
    } else if step.applied && s.live[step.h].job == id {
      assert KnowsSuccess(s, step.h, id);
    }
  }

  lemma EvidenceStep(cfg: Config, s: State, step: Step, id: JobId)
    requires Sound(cfg, s) && JobsOk(cfg, s) && Enabled(cfg, s, step) && Configured(cfg, s, id)
    requires Achieved(Do(cfg, s, step), id)
    ensures Achieved(s, id) || MovedOf(cfg, id)(s, step)
  {
    var s' := Do(cfg, s, step);
    if step.Settle? {
      EvidenceSettle(cfg, s, step, id);
    } else if !step.Execute? && !step.Crash? {
      AchievedQuiet(cfg, s, step, id);
    } else if Known(s', id) {
      var h :| KnowsSuccess(s', h, id);
      MovedIsOutcome(cfg, s, step, id);
      assert KnowsSuccess(s, h, id) || MovedOf(cfg, id)(s, step);
    }
  }

  lemma {:induction false} EvidenceRun(cfg: Config, s: State, run: seq<Step>, id: JobId)
    requires Sound(cfg, s) && JobsOk(cfg, s) && IsRun(cfg, s, run)
    requires Configured(cfg, Exec(cfg, s, run), id)
    requires Achieved(Exec(cfg, s, run), id) && !Achieved(s, id)
    ensures Count(cfg, s, run, MovedOf(cfg, id)) >= 1
    decreases |run|
  {
    if run != [] {
      var s1 := Do(cfg, s, run[0]);
      if id in s.rows { TargetFixed(cfg, s, run, id); }
      if Achieved(s1, id) {
        EvidenceStep(cfg, s, run[0], id);
      } else {
        SoundStep(cfg, s, run[0]);
        JobsOkStep(cfg, s, run[0]);
        EvidenceRun(cfg, s1, run[1..], id);
      }
    }
  }

  /** In every run, stale marks and crashes included, a completed row had a successful transition with
      its configured id, or no id is configured for its target state. */
  lemma CompletedWasMoved(cfg: Config, s: State, run: seq<Step>, id: JobId)
    requires Init(s) && IsRun(cfg, s, run)
    requires id in Exec(cfg, s, run).rows && Exec(cfg, s, run).rows[id].status == Completed
    ensures || Executor.NotConfigured(cfg.executor, Exec(cfg, s, run).rows[id].target)
            || Count(cfg, s, run, MovedOf(cfg, id)) >= 1
  {
    if Configured(cfg, Exec(cfg, s, run), id) {
      EvidenceRun(cfg, s, run, id);
    }
  }
}
