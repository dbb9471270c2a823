/** Ownership: as long as no reset touches a job some worker still holds, a handle's row is exactly
    the row it was claimed as, although no mark is guarded by SQL. */
module QueueOwnership {
  import opened Domain
  import opened JobTable
  import opened Queue
  import opened QueueSafety

  ghost predicate OwnsRow(s: State, h: HandleId)
    requires h in s.live
  {
    var l := s.live[h];
    && Due(l.snap, l.claimedAt)
    && l.job in s.rows
    && s.rows[l.job] == AsRunning(l.snap, l.claimedAt)
  }

  ghost predicate IsOwner(s: State, h: HandleId) {
    h in s.live && Owning(s.live[h])
  }

  ghost predicate Owned(s: State) {
    && (forall h :: IsOwner(s, h) ==> OwnsRow(s, h))
    && (forall h, g :: IsOwner(s, h) && IsOwner(s, g) && s.live[h].job == s.live[g].job ==> h == g)
  }

  lemma OwnedCommitNew(cfg: Config, s: State, p: ProcId, h: HandleId)
    requires Sound(cfg, s) && Enabled(cfg, s, Commit(p))
    requires h in Do(cfg, s, Commit(p)).live && h !in s.live
    ensures OwnsRow(Do(cfg, s, Commit(p)), h) && Holds(s, p, Do(cfg, s, Commit(p)).live[h].job)
  {
    assert TxOk(cfg, s, p);
    var tx := s.procs[p].phase;
    assert tx.ids[h - s.nextHandle] in tx.ids;
  }

  /** A row with an owner is running, so no transaction holds it. */
  lemma OwnedNotLocked(cfg: Config, s: State, h: HandleId, p: ProcId)
    requires LocksOk(cfg, s) && Owned(s) && IsOwner(s, h)
    ensures !Holds(s, p, s.live[h].job)
  {
    assert OwnsRow(s, h);
    assert p in s.procs && s.procs[p].phase.Locked? ==> TxOk(cfg, s, p);
  }

  /** What a handle holds is fixed when it is made, and a marked handle stays marked. */
  lemma HandleKept(cfg: Config, s: State, step: Step, h: HandleId)
    requires Enabled(cfg, s, step) && h in s.live && h < s.nextHandle && h in Do(cfg, s, step).live
    ensures Do(cfg, s, step).live[h] == s.live[h].(stage := Do(cfg, s, step).live[h].stage)
    ensures step.Settle? && step.h == h ==> Do(cfg, s, step).live[h].stage.Marked?
  {
  }

  lemma OwnsRowStep(cfg: Config, s: State, step: Step, h: HandleId)
    requires Sound(cfg, s) && Owned(s) && Enabled(cfg, s, step) && Gentle(cfg, s, step)
    requires IsOwner(s, h) && IsOwner(Do(cfg, s, step), h)
    ensures OwnsRow(Do(cfg, s, step), h)
    ensures Do(cfg, s, step).live[h].job == s.live[h].job
  {
    assert OwnsRow(s, h) && HandleOk(s, h);
    HandleKept(cfg, s, step, h);
    var id := s.live[h].job;
    RowChange(cfg, s, step, id);
    if Claims(s, step, id) {
      OwnedNotLocked(cfg, s, h, step.p);
    } else if Marks(s, step, id) {
      assert IsOwner(s, step.h);
    }
  }

  lemma OwnersPersist(cfg: Config, s: State, step: Step, h: HandleId)
    requires HandlesOk(cfg, s) && Enabled(cfg, s, step) && IsOwner(Do(cfg, s, step), h)
    ensures if h in s.live then IsOwner(s, h) && Do(cfg, s, step).live[h].job == s.live[h].job else step.Commit?
  {
    if step.Launch? { assert BatchOk(cfg, s, step.p); }
    if h in s.live { assert HandleOk(s, h); }
  }

  lemma NewOwnersDistinct(cfg: Config, s: State, p: ProcId, h: HandleId, g: HandleId)
    requires LocksOk(cfg, s) && Enabled(cfg, s, Commit(p))
    requires h !in s.live && g !in s.live
    requires h in Do(cfg, s, Commit(p)).live && g in Do(cfg, s, Commit(p)).live
    requires Do(cfg, s, Commit(p)).live[h].job == Do(cfg, s, Commit(p)).live[g].job
    ensures h == g
  {
    assert TxOk(cfg, s, p);
  }

  lemma OwnedStep(cfg: Config, s: State, step: Step)
    requires Sound(cfg, s) && Owned(s) && Enabled(cfg, s, step) && Gentle(cfg, s, step)
    ensures Owned(Do(cfg, s, step))
  {
    var s' := Do(cfg, s, step);
    forall h | IsOwner(s', h)
      ensures OwnsRow(s', h)
    {
      OwnersPersist(cfg, s, step, h);
      if h in s.live { OwnsRowStep(cfg, s, step, h); } else { OwnedCommitNew(cfg, s, step.p, h); }
    }
    forall h, g | IsOwner(s', h) && IsOwner(s', g) && s'.live[h].job == s'.live[g].job
      ensures h == g
    {
      OneOwnerStep(cfg, s, step, h, g);
    }
  }

  lemma OneOwnerStep(cfg: Config, s: State, step: Step, h: HandleId, g: HandleId)
    requires Sound(cfg, s) && Owned(s) && Enabled(cfg, s, step)
    requires IsOwner(Do(cfg, s, step), h) && IsOwner(Do(cfg, s, step), g)
    requires Do(cfg, s, step).live[h].job == Do(cfg, s, step).live[g].job
    ensures h == g
  {
    OwnersPersist(cfg, s, step, h);
    OwnersPersist(cfg, s, step, g);
    if h in s.live && g !in s.live {
      OwnedCommitNew(cfg, s, step.p, g);
      OwnedNotLocked(cfg, s, h, step.p);
    } else if g in s.live && h !in s.live {
      OwnedCommitNew(cfg, s, step.p, h);
      OwnedNotLocked(cfg, s, g, step.p);
    } else if h !in s.live {
      NewOwnersDistinct(cfg, s, step.p, h, g);
    }
  }

  // ----- what ownership gives -----

  /** A mark lands on the running row its worker was given. */
  lemma MarkHitsOwnRow(s: State, step: Step, id: JobId)
    requires Owned(s) && Marks(s, step, id)
    ensures id in s.rows && s.rows[id] == AsRunning(s.live[step.h].snap, s.live[step.h].claimedAt)
    ensures Due(s.live[step.h].snap, s.live[step.h].claimedAt)
  {
    assert IsOwner(s, step.h) && OwnsRow(s, step.h);
  }

  /** Completed and dead rows never change again, in any column. */
  lemma TerminalStep(cfg: Config, s: State, step: Step, id: JobId)
    requires LocksOk(cfg, s) && Owned(s) && Enabled(cfg, s, step)
    requires id in s.rows && Terminal(s.rows[id])
    ensures id in Do(cfg, s, step).rows && Do(cfg, s, step).rows[id] == s.rows[id]
  {
    RowChange(cfg, s, step, id);
    if Marks(s, step, id) { assert IsOwner(s, step.h); }
  }

  lemma {:induction false} OwnedRun(cfg: Config, s: State, run: seq<Step>)
    requires Sound(cfg, s) && Owned(s) && IsRun(cfg, s, run) && GentleRun(cfg, s, run)
    ensures Sound(cfg, Exec(cfg, s, run)) && Owned(Exec(cfg, s, run))
    decreases |run|
  {
    if run != [] {
      SoundStep(cfg, s, run[0]);
      OwnedStep(cfg, s, run[0]);
      OwnedRun(cfg, Do(cfg, s, run[0]), run[1..]);
    }
  }

  lemma {:induction false} TerminalAbsorbing(cfg: Config, s: State, run: seq<Step>, id: JobId)
    requires Sound(cfg, s) && Owned(s) && IsRun(cfg, s, run) && GentleRun(cfg, s, run)
    requires id in s.rows && Terminal(s.rows[id])
    ensures id in Exec(cfg, s, run).rows && Exec(cfg, s, run).rows[id] == s.rows[id]
    decreases |run|
  {
    if run != [] {
      SoundStep(cfg, s, run[0]);
      OwnedStep(cfg, s, run[0]);
      TerminalStep(cfg, s, run[0], id);
      TerminalAbsorbing(cfg, Do(cfg, s, run[0]), run[1..], id);
    }
  }

  /** In every run from an empty system in which no live job is reset: a live handle's row is running
      since the claim, with the snapshot's attempts; no row has two live handles. */
  lemma ExclusiveOwnership(cfg: Config, s: State, run: seq<Step>)
    requires Init(s) && IsRun(cfg, s, run) && GentleRun(cfg, s, run)
    ensures var e := Exec(cfg, s, run);
            && (forall h :: IsOwner(e, h) ==>
                  var l := e.live[h];
                  && l.job in e.rows
                  && e.rows[l.job].status == Running
                  && e.rows[l.job].runningSince == Some(l.claimedAt)
                  && e.rows[l.job].attempts == l.snap.attempts
                  && e.rows[l.job].maxAttempts == l.snap.maxAttempts)
            && (forall h, g :: IsOwner(e, h) && IsOwner(e, g) && e.live[h].job == e.live[g].job ==> h == g)
  {
    OwnedRun(cfg, s, run);
  }
}
