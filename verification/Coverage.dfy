/**
 Whether every issue key of every stored event gets its job. It does not always: the handlers never
 look back. This module names the steps that lose a job and proves that they are exactly the ones.
 */
module Coverage {
  import opened Domain
  import opened Events
  import opened Ingest
  import IssueKeys

  ghost predicate HasJob(s: State, e: EventId, key: string) {
    exists j :: j in s.jobs && s.jobs[j].eventId == e && s.jobs[j].issueKey == key
  }

  predicate WorksOn(s: State, h: DeliveryId, e: EventId) {
    h in s.deliveries && s.deliveries[h].stage.Enqueuing? && s.deliveries[h].stage.eid == e
  }

  /** A live handler has still to reach the i-th key of this event. */
  predicate Reaches(s: State, h: DeliveryId, e: EventId, i: nat) {
    WorksOn(s, h, e) && s.deliveries[h].stage.next <= i
  }

  predicate IsKey(s: State, e: EventId, i: nat) {
    e in s.events && i < |s.events[e].issueKeys|
  }

  /** The i-th key of the event has its job or will be reached. */
  ghost predicate Covered(s: State, e: EventId, i: nat)
    requires IsKey(s, e, i)
  {
    HasJob(s, e, s.events[e].issueKeys[i]) || exists h :: Reaches(s, h, e, i)
  }

  ghost predicate AllCovered(s: State) {
    forall e, i: nat :: IsKey(s, e, i) ==> Covered(s, e, i)
  }

  /** The three ways to lose a job: a handler crashes with keys of its stored event still to do; an
      enqueue for a stored event is not applied; an insert stores an event with keys but reports an
      error. Each condition is visible in the state before the step. */
  ghost predicate Loses(s: State, step: Step) {
    match step
    case Crash(h) =>
      && h in s.deliveries && s.deliveries[h].stage.Enqueuing?
      && s.deliveries[h].stage.eid in s.events
      && s.deliveries[h].stage.next < |s.deliveries[h].stage.row.issueKeys|
    case EnqueueNext(h, _, _, fault) =>
      && h in s.deliveries && s.deliveries[h].stage.Enqueuing?
      && s.deliveries[h].stage.eid in s.events && fault == NotApplied
    case Insert(h, fault) =>
      && h in s.deliveries && s.deliveries[h].stage.Inserting?
      && !KeyStored(s.events, s.deliveries[h].stage.row.key)
      && s.deliveries[h].stage.row.issueKeys != [] && fault == Unacknowledged
    case _ => false
  }

  ghost predicate LosesSomewhere(cfg: Config, s: State, run: seq<Step>)
    requires IsRun(cfg, s, run)
    decreases |run|
  {
    run != [] && (Loses(s, run[0]) || LosesSomewhere(cfg, Do(cfg, s, run[0]), run[1..]))
  }

  // ----- without such a step everything stays covered -----

  lemma ReachAdvances(cfg: Config, s: State, step: Step, h: DeliveryId, e: EventId, i: nat)
    requires Enabled(s, step) && !Loses(s, step) && Reaches(s, h, e, i) && IsKey(s, e, i)
    requires s.deliveries[h].stage.row == s.events[e]
    ensures HasJob(Do(cfg, s, step), e, s.events[e].issueKeys[i]) || Reaches(Do(cfg, s, step), h, e, i)
  {
    var t := Do(cfg, s, step);
    if step.EnqueueNext? && step.h == h && s.deliveries[h].stage.next == i {
      assert step.jobId in t.jobs && t.jobs[step.jobId].eventId == e;
    }
  }

  lemma HasJobKept(cfg: Config, s: State, step: Step, e: EventId, key: string)
    requires Enabled(s, step) && HasJob(s, e, key)
    ensures HasJob(Do(cfg, s, step), e, key)
  {
    var j :| j in s.jobs && s.jobs[j].eventId == e && s.jobs[j].issueKey == key;
    JobsChange(cfg, s, step, j);
  }

  lemma CoveredStep(cfg: Config, s: State, step: Step, e: EventId, i: nat)
    requires Sound(cfg, s) && Enabled(s, step) && !Loses(s, step) && AllCovered(s)
    requires IsKey(Do(cfg, s, step), e, i)
    ensures Covered(Do(cfg, s, step), e, i)
  {
    var t := Do(cfg, s, step);
    if e !in s.events {
      assert step.Insert? && Reaches(t, step.h, e, i);
    } else {
      EventsGrow(cfg, s, step, e);
      assert IsKey(s, e, i) && Covered(s, e, i);
      if HasJob(s, e, s.events[e].issueKeys[i]) {
        HasJobKept(cfg, s, step, e, s.events[e].issueKeys[i]);
      } else {
        var h :| Reaches(s, h, e, i);
        assert HoldsId(s, h) && StageOk(cfg, s, h);
        ReachAdvances(cfg, s, step, h, e, i);
      }
    }
  }

  lemma {:induction false} CoveredRun(cfg: Config, s: State, run: seq<Step>)
    requires IssueKeys.ProjectKey(cfg.projectKey) && Sound(cfg, s) && AllCovered(s) && IsRun(cfg, s, run)
    requires !LosesSomewhere(cfg, s, run)
    ensures AllCovered(Exec(cfg, s, run))
    decreases |run|
  {
    if run != [] {
      var t := Do(cfg, s, run[0]);
      forall e, i: nat | IsKey(t, e, i) ensures Covered(t, e, i) { CoveredStep(cfg, s, run[0], e, i); }
      SoundStep(cfg, s, run[0]);
      CoveredRun(cfg, t, run[1..]);
    }
  }

  // ----- after such a step some key is missing for good -----

  /** The i-th key of this stored event has no job, and nobody is left to reach it. */
  ghost predicate Missing(s: State, e: EventId, i: nat) {
    IsKey(s, e, i) && !Covered(s, e, i)
  }

  lemma LossCrash(cfg: Config, s: State, step: Step) returns (e: EventId, i: nat)
    requires Sound(cfg, s) && Enabled(s, step) && Loses(s, step) && step.Crash?
    ensures Missing(Do(cfg, s, step), e, i)
  {
    var st := s.deliveries[step.h].stage;
    assert HoldsId(s, step.h) && StageOk(cfg, s, step.h);
    e, i := st.eid, st.next;
    NotYet(cfg, s, step.h, i);
    var t := Do(cfg, s, step);
    assert t.jobs == s.jobs && t.events[e].issueKeys[i] == st.row.issueKeys[i];
    forall h ensures !Reaches(t, h, e, i) { OnlyWorker(cfg, s, step.h, h, e); }
  }

  lemma LossEnqueue(cfg: Config, s: State, step: Step) returns (e: EventId, i: nat)
    requires Sound(cfg, s) && Enabled(s, step) && Loses(s, step) && step.EnqueueNext?
    ensures Missing(Do(cfg, s, step), e, i)
  {
    var st := s.deliveries[step.h].stage;
    assert HoldsId(s, step.h) && StageOk(cfg, s, step.h);
    e, i := st.eid, st.next;
    NotYet(cfg, s, step.h, i);
    var t := Do(cfg, s, step);
    assert t.jobs == s.jobs && t.events[e].issueKeys[i] == st.row.issueKeys[i];
    forall h ensures !Reaches(t, h, e, i) { OnlyWorker(cfg, s, step.h, h, e); }
  }

  lemma LossInsert(cfg: Config, s: State, step: Step) returns (e: EventId, i: nat)
    requires Sound(cfg, s) && Enabled(s, step) && Loses(s, step) && step.Insert?
    ensures Missing(Do(cfg, s, step), e, i)
  {
    assert HoldsId(s, step.h) && StageOk(cfg, s, step.h);
    e, i := s.deliveries[step.h].stage.eid, 0;
    var t := Do(cfg, s, step);
    assert forall j :: j in s.jobs ==> JobOk(cfg, s, j);
    forall h ensures !Reaches(t, h, e, i) { assert Reaches(t, h, e, i) ==> HoldsId(s, h); }
  }

  /** The key at a handler's loop index, and those after it, have no job yet. */
  lemma NotYet(cfg: Config, s: State, h: DeliveryId, i: nat)
    requires Sound(cfg, s) && HoldsId(s, h) && s.deliveries[h].stage.Enqueuing?
    requires s.deliveries[h].stage.next <= i < |s.deliveries[h].stage.row.issueKeys|
    ensures !HasJob(s, s.deliveries[h].stage.eid, s.deliveries[h].stage.row.issueKeys[i])
  {
    var st := s.deliveries[h].stage;
    assert StageOk(cfg, s, h);
    forall j | j in s.jobs && s.jobs[j].eventId == st.eid
      ensures s.jobs[j].issueKey != st.row.issueKeys[i]
    {
      assert JobBehind(s, h, j);
      assert st.row.issueKeys[i] !in st.row.issueKeys[..st.next];
    }
  }

  lemma OnlyWorker(cfg: Config, s: State, h: DeliveryId, g: DeliveryId, e: EventId)
    requires StagesOk(cfg, s) && WorksOn(s, h, e)
    ensures WorksOn(s, g, e) ==> g == h
  {
    assert WorksOn(s, g, e) ==> HoldsId(s, g);
    assert HoldsId(s, h);
  }

  /** Nobody new comes to work on an event that is already stored. */
  lemma NoNewReach(cfg: Config, s: State, step: Step, h: DeliveryId, e: EventId, i: nat)
    requires StagesOk(cfg, s) && Enabled(s, step) && e in s.events && Reaches(Do(cfg, s, step), h, e, i)
    ensures Reaches(s, h, e, i)
  {
    if HoldsId(s, h) { assert StageOk(cfg, s, h); }
  }

  /** A new job is for a key some handler reaches. */
  lemma NewJobReached(cfg: Config, s: State, step: Step, e: EventId, i: nat)
    requires Sound(cfg, s) && Enabled(s, step) && IsKey(s, e, i)
    requires !HasJob(s, e, s.events[e].issueKeys[i]) && HasJob(Do(cfg, s, step), e, s.events[e].issueKeys[i])
    ensures exists h :: Reaches(s, h, e, i)
  {
    var t, key := Do(cfg, s, step), s.events[e].issueKeys[i];
    var j :| j in t.jobs && t.jobs[j].eventId == e && t.jobs[j].issueKey == key;
    JobsChange(cfg, s, step, j);
    assert HoldsId(s, step.h) && StageOk(cfg, s, step.h);
    assert s.deliveries[step.h].stage.next == i;
    assert Reaches(s, step.h, e, i);
  }

  lemma MissingStep(cfg: Config, s: State, step: Step, e: EventId, i: nat)
    requires Sound(cfg, s) && Enabled(s, step) && Missing(s, e, i)
    ensures Missing(Do(cfg, s, step), e, i)
  {
    var t := Do(cfg, s, step);
    EventsGrow(cfg, s, step, e);
    if HasJob(t, e, t.events[e].issueKeys[i]) { NewJobReached(cfg, s, step, e, i); }
    forall h ensures !Reaches(t, h, e, i) { if Reaches(t, h, e, i) { NoNewReach(cfg, s, step, h, e, i); } }
  }

  lemma {:induction false} MissingRun(cfg: Config, s: State, run: seq<Step>, e: EventId, i: nat)
    requires IssueKeys.ProjectKey(cfg.projectKey) && Sound(cfg, s) && IsRun(cfg, s, run) && Missing(s, e, i)
    ensures Missing(Exec(cfg, s, run), e, i)
    decreases |run|
  {
    if run != [] {
      MissingStep(cfg, s, run[0], e, i);
      SoundStep(cfg, s, run[0]);
      MissingRun(cfg, Do(cfg, s, run[0]), run[1..], e, i);
    }
  }

  /** A losing step, in any mode, leaves a key of a stored event without a job in every continuation. */
  lemma LossIsForever(cfg: Config, s: State, step: Step, run: seq<Step>) returns (e: EventId, i: nat)
    requires IssueKeys.ProjectKey(cfg.projectKey) && Sound(cfg, s) && Enabled(s, step) && Loses(s, step)
    requires IsRun(cfg, Do(cfg, s, step), run)
    ensures var t := Exec(cfg, Do(cfg, s, step), run);
            IsKey(t, e, i) && !HasJob(t, e, t.events[e].issueKeys[i])
    ensures Missing(Exec(cfg, Do(cfg, s, step), run), e, i)
  {
    if step.Crash? {
      e, i := LossCrash(cfg, s, step);
    } else if step.EnqueueNext? {
      e, i := LossEnqueue(cfg, s, step);
    } else {
      e, i := LossInsert(cfg, s, step);
    }
    SoundStep(cfg, s, step);
    MissingRun(cfg, Do(cfg, s, step), run, e, i);
  }

  lemma {:induction false} LossRun(cfg: Config, s: State, run: seq<Step>)
    requires IssueKeys.ProjectKey(cfg.projectKey) && Sound(cfg, s) && IsRun(cfg, s, run)
    requires LosesSomewhere(cfg, s, run)
    ensures !AllCovered(Exec(cfg, s, run))
    decreases |run|
  {
    if Loses(s, run[0]) {
      var e, i := LossIsForever(cfg, s, run[0], run[1..]);
    } else {
      SoundStep(cfg, s, run[0]);
      LossRun(cfg, Do(cfg, s, run[0]), run[1..]);
    }
  }

  // ----- the exact condition -----

  predicate Ended(s: State, h: DeliveryId) {
    h in s.deliveries && (s.deliveries[h].stage.Answered? || s.deliveries[h].stage.Crashed?)
  }

  ghost predicate EveryKeyHasItsJob(s: State) {
    forall e, i: nat :: IsKey(s, e, i) ==> HasJob(s, e, s.events[e].issueKeys[i])
  }

  ghost predicate JobsComeFromEvents(cfg: Config, s: State) {
    && (forall j :: j in s.jobs ==>
          && s.jobs[j].eventId in s.events
          && s.jobs[j].issueKey in s.events[s.jobs[j].eventId].issueKeys
          && TargetOfRow(cfg, s.events[s.jobs[j].eventId]) == Some(s.jobs[j].target)
          && s.jobs[j].status == Pending && s.jobs[j].attempts == 0 && s.jobs[j].maxAttempts == cfg.maxAttempts)
    && (forall j, k :: j in s.jobs && k in s.jobs && SameWork(s.jobs[j], s.jobs[k]) ==> j == k)
  }

  /** When every delivery was answered or crashed: the jobs are at most the stored events' issue keys,
      one job for each, with the target state computed from the stored row; and every key has its job
      if and only if no step of the run was a losing one. */
  lemma JobsRefineEvents(cfg: Config, s: State, run: seq<Step>)
    requires IssueKeys.ProjectKey(cfg.projectKey) && Init(s) && IsRun(cfg, s, run)
    requires forall h :: h in Exec(cfg, s, run).deliveries ==> Ended(Exec(cfg, s, run), h)
    ensures JobsComeFromEvents(cfg, Exec(cfg, s, run))
    ensures EveryKeyHasItsJob(Exec(cfg, s, run)) <==> !LosesSomewhere(cfg, s, run)
  {
    SoundRun(cfg, s, run);
    var t := Exec(cfg, s, run);
    assert forall j :: j in t.jobs ==> JobOk(cfg, t, j);
    NothingLeftToReach(t);
    if LosesSomewhere(cfg, s, run) { LossRun(cfg, s, run); } else { CoveredRun(cfg, s, run); }
  }

  lemma NothingLeftToReach(t: State)
    requires forall h :: h in t.deliveries ==> Ended(t, h)
    ensures AllCovered(t) <==> EveryKeyHasItsJob(t)
  {
    forall h, e, i ensures !Reaches(t, h, e, i) { assert h in t.deliveries ==> Ended(t, h); }
    if AllCovered(t) {
      forall e, i: nat | IsKey(t, e, i) ensures HasJob(t, e, t.events[e].issueKeys[i]) { assert Covered(t, e, i); }
    }
  }

  // ----- a concrete loss -----

  const R_CONFIG: Config := Config("R", "develop", "master", "thumbsup", 5)

  /** A new branch named R-1. */
  const R_PUSH: Payload := PushPayload(1, "R-1", "", [])

  lemma RPushIsPlanned()
    ensures IssueKeys.ProjectKey("R") && Plan(R_CONFIG, R_PUSH).Some?
  {
    assert "R-1"[2..3] == "1";
    assert IssueKeys.Occurrence("R", "R-1", 0, 3);
    IssueKeys.KeysExactly("R", "R-1", IssueKeys.KeyAt("R-1", 0, 3));
    assert ParsePayload(R_PUSH).sourceBranch == "R-1";
  }

  /** From the empty system: the push is checked and stored, and the process dies before it enqueues. */
  lemma ConcreteLoss()
    ensures var s := State(map[], map[], map[], 0);
            var run := [Arrive(0, R_PUSH), Check(0, Fine), Insert(0, Fine), Crash(0)];
            && Init(s) && IsRun(R_CONFIG, s, run)
            && (forall h :: h in Exec(R_CONFIG, s, run).deliveries ==> Ended(Exec(R_CONFIG, s, run), h))
            && LosesSomewhere(R_CONFIG, s, run)
            && !EveryKeyHasItsJob(Exec(R_CONFIG, s, run))
  {
    RPushIsPlanned();
    PlanProperties(R_CONFIG, R_PUSH);
    var s := State(map[], map[], map[], 0);
    var run := [Arrive(0, R_PUSH), Check(0, Fine), Insert(0, Fine), Crash(0)];
    var s1 := Do(R_CONFIG, s, run[0]);
    assert s1.deliveries[0].stage == Arrived && s1.events == map[];
    var s2 := Do(R_CONFIG, s1, run[1]);
    assert s2.deliveries[0].stage.Inserting? && s2.events == map[];
    var s3 := Do(R_CONFIG, s2, run[2]);
    assert s3.deliveries[0].stage.Enqueuing? && s3.deliveries[0].stage.eid in s3.events;
    var s4 := Do(R_CONFIG, s3, run[3]);
    FourSteps(R_CONFIG, s, run[0], run[1], run[2], run[3]);
    assert s4.deliveries.Keys == {0};
    JobsRefineEvents(R_CONFIG, s, run);
  }

  lemma Cons(cfg: Config, s: State, step: Step, rest: seq<Step>)
    requires Enabled(s, step) && IsRun(cfg, Do(cfg, s, step), rest)
    ensures IsRun(cfg, s, [step] + rest)
    ensures Exec(cfg, s, [step] + rest) == Exec(cfg, Do(cfg, s, step), rest)
    ensures Loses(s, step) || LosesSomewhere(cfg, Do(cfg, s, step), rest) ==> LosesSomewhere(cfg, s, [step] + rest)
  {
    assert ([step] + rest)[1..] == rest;
  }

  lemma FourSteps(cfg: Config, s: State, a: Step, b: Step, c: Step, d: Step)
    requires Enabled(s, a)
    requires Enabled(Do(cfg, s, a), b)
    requires Enabled(Do(cfg, Do(cfg, s, a), b), c)
    requires Enabled(Do(cfg, Do(cfg, Do(cfg, s, a), b), c), d)
    ensures IsRun(cfg, s, [a, b, c, d])
    ensures Exec(cfg, s, [a, b, c, d]) == Do(cfg, Do(cfg, Do(cfg, Do(cfg, s, a), b), c), d)
    ensures Loses(Do(cfg, Do(cfg, Do(cfg, s, a), b), c), d) ==> LosesSomewhere(cfg, s, [a, b, c, d])
  {
    var s1 := Do(cfg, s, a);
    var s2 := Do(cfg, s1, b);
    var s3 := Do(cfg, s2, c);
    Cons(cfg, s3, d, []);
    Cons(cfg, s2, c, [d]);
    Cons(cfg, s1, b, [c, d]);
    Cons(cfg, s, a, [b, c, d]);
    assert [d] == [d] + [] && [c, d] == [c] + [d] && [b, c, d] == [b] + [c, d] && [a, b, c, d] == [a] + [b, c, d];
  }

  // ----- a crash freezes the jobs of its event -----

  /** The event is stored and nobody is left to enqueue its jobs. */
  ghost predicate Orphan(s: State, e: EventId) {
    e in s.events && forall h :: HoldsId(s, h) ==> s.deliveries[h].stage.eid != e
  }

  predicate SameJobsFor(s: State, t: State, e: EventId) {
    && (forall j :: j in s.jobs && s.jobs[j].eventId == e ==> j in t.jobs && t.jobs[j] == s.jobs[j])
    && (forall j :: j in t.jobs && t.jobs[j].eventId == e ==> j in s.jobs && t.jobs[j] == s.jobs[j])
  }

  lemma OrphanStep(cfg: Config, s: State, step: Step, e: EventId)
    requires Sound(cfg, s) && Enabled(s, step) && Orphan(s, e)
    ensures Orphan(Do(cfg, s, step), e) && SameJobsFor(s, Do(cfg, s, step), e)
  {
    var t := Do(cfg, s, step);
    EventsGrow(cfg, s, step, e);
    forall h | HoldsId(t, h) ensures t.deliveries[h].stage.eid != e { OwnIdStep(cfg, s, step, h); }
    forall j ensures j in s.jobs ==> j in t.jobs && t.jobs[j] == s.jobs[j] { JobsChange(cfg, s, step, j); }
    forall j | j in t.jobs && t.jobs[j].eventId == e
      ensures j in s.jobs && t.jobs[j] == s.jobs[j]
    {
      JobsChange(cfg, s, step, j);
      if j !in s.jobs { assert HoldsId(s, step.h); }
    }
  }

  lemma {:induction false} OrphanRun(cfg: Config, s: State, run: seq<Step>, e: EventId)
    requires IssueKeys.ProjectKey(cfg.projectKey) && Sound(cfg, s) && IsRun(cfg, s, run) && Orphan(s, e)
    ensures Orphan(Exec(cfg, s, run), e) && SameJobsFor(s, Exec(cfg, s, run), e)
    decreases |run|
  {
    if run != [] {
      OrphanStep(cfg, s, run[0], e);
      SoundStep(cfg, s, run[0]);
      OrphanRun(cfg, Do(cfg, s, run[0]), run[1..], e);
    }
  }

  /** Once a handler crashes behind its insert, the jobs of its event are frozen as they are: no run adds
      any, and a redelivery is told the event was already processed. */
  lemma CrashLosesJobs(cfg: Config, s: State, h: DeliveryId, run: seq<Step>, again: Step)
    requires IssueKeys.ProjectKey(cfg.projectKey) && Sound(cfg, s)
    requires Enabled(s, Crash(h)) && s.deliveries[h].stage.Enqueuing? && s.deliveries[h].stage.eid in s.events
    requires IsRun(cfg, Do(cfg, s, Crash(h)), run)
    requires var t := Exec(cfg, Do(cfg, s, Crash(h)), run);
             && Enabled(t, again) && again.Check? && again.fault == Fine
             && !ParsePayload(t.deliveries[again.h].payload).kind.Unrecognized?
             && ParsePayload(t.deliveries[again.h].payload).key == s.deliveries[h].stage.row.key
    ensures var e := s.deliveries[h].stage.eid;
            var t := Exec(cfg, Do(cfg, s, Crash(h)), run);
            && SameJobsFor(s, t, e)
            && Do(cfg, t, again).deliveries[again.h].stage == Answered(AlreadyProcessed)
  {
    var e := s.deliveries[h].stage.eid;
    var s1 := Do(cfg, s, Crash(h));
    assert HoldsId(s, h) && StageOk(cfg, s, h);
    SoundStep(cfg, s, Crash(h));
    assert Orphan(s1, e);
    OrphanRun(cfg, s1, run, e);
    EventsKeptRun(cfg, s1, run, e);
    var t := Exec(cfg, s1, run);
    assert KeyStored(t.events, s.deliveries[h].stage.row.key);
  }

  lemma {:induction false} EventsKeptRun(cfg: Config, s: State, run: seq<Step>, e: EventId)
    requires IssueKeys.ProjectKey(cfg.projectKey) && Sound(cfg, s) && IsRun(cfg, s, run) && e in s.events
    ensures e in Exec(cfg, s, run).events && Exec(cfg, s, run).events[e] == s.events[e]
    decreases |run|
  {
    if run != [] {
      EventsGrow(cfg, s, run[0], e);
      SoundStep(cfg, s, run[0]);
      EventsKeptRun(cfg, Do(cfg, s, run[0]), run[1..], e);
    }
  }
}
