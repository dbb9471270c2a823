/**
 Webhook ingestion as interleaved handlers. Each delivery runs check, insert and one enqueue per
 issue key as separate atomic statements; any number of deliveries interleave, statements may fail
 with or without having been applied, and handlers may crash between any two of them.
 */
module Ingest {
  import opened Domain
  import opened JobTable
  import opened Events
  import IssueKeys

  type DeliveryId = nat

  datatype Response = Accepted | AlreadyProcessed | Ignored | InternalError

  datatype Stage =
    | Arrived
    | Inserting(eid: EventId, row: EventRow, target: WorkflowState)
    | Enqueuing(eid: EventId, row: EventRow, target: WorkflowState, next: nat)
    | Answered(response: Response)
    | Crashed

  datatype Delivery = Delivery(payload: Payload, stage: Stage)

  datatype State = State(
    events: map<EventId, EventRow>,
    jobs: Rows,
    deliveries: map<DeliveryId, Delivery>,
    nextEvent: EventId)

  /** NotApplied and Unacknowledged both report an error; only the second changed the database. */
  datatype Fault = Fine | NotApplied | Unacknowledged

  datatype Step =
    | Arrive(h: DeliveryId, payload: Payload)
    | Check(h: DeliveryId, fault: Fault)
    | Insert(h: DeliveryId, fault: Fault)
    | EnqueueNext(h: DeliveryId, jobId: JobId, at: int, fault: Fault)
    | Finish(h: DeliveryId)
    | Crash(h: DeliveryId)

  ghost predicate Init(s: State) {
    s.events == map[] && s.jobs == map[] && s.deliveries == map[]
  }

  predicate Enabled(s: State, step: Step) {
    match step
    case Arrive(h, _) => h !in s.deliveries
    case Check(h, _) => h in s.deliveries && s.deliveries[h].stage.Arrived?
    case Insert(h, _) => h in s.deliveries && s.deliveries[h].stage.Inserting?
    case EnqueueNext(h, jobId, _, _) =>
      && h in s.deliveries && s.deliveries[h].stage.Enqueuing?
      && s.deliveries[h].stage.next < |s.deliveries[h].stage.row.issueKeys|
      && jobId !in s.jobs
    case Finish(h) =>
      && h in s.deliveries && s.deliveries[h].stage.Enqueuing?
      && s.deliveries[h].stage.next >= |s.deliveries[h].stage.row.issueKeys|
    case Crash(h) => h in s.deliveries && !s.deliveries[h].stage.Answered? && !s.deliveries[h].stage.Crashed?
  }

  function AtStage(s: State, h: DeliveryId, stage: Stage): State
    requires h in s.deliveries
  {
    s.(deliveries := s.deliveries[h := s.deliveries[h].(stage := stage)])
  }

  ghost predicate KeyStored(events: map<EventId, EventRow>, key: string) {
    exists e :: e in events && events[e].key == key
  }

  ghost function AfterCheck(cfg: Config, s: State, h: DeliveryId, fault: Fault): State
    requires h in s.deliveries
  {
    var payload := s.deliveries[h].payload;
    if ParsePayload(payload).kind.Unrecognized? then AtStage(s, h, Answered(Ignored))
    else if fault != Fine then AtStage(s, h, Answered(InternalError))
    else if KeyStored(s.events, ParsePayload(payload).key) then AtStage(s, h, Answered(AlreadyProcessed))
    else
      match Plan(cfg, payload)
      case None => AtStage(s, h, Answered(Ignored))
      case Some((row, target)) =>
        AtStage(s, h, Inserting(s.nextEvent, row, target)).(nextEvent := s.nextEvent + 1)
  }

  /** INSERT ... ON CONFLICT (idempotency_key) DO NOTHING */
  ghost function InsertRow(events: map<EventId, EventRow>, eid: EventId, row: EventRow): map<EventId, EventRow> {
    if KeyStored(events, row.key) then events else events[eid := row]
  }

  ghost function AfterInsert(s: State, h: DeliveryId, fault: Fault): State
    requires h in s.deliveries && s.deliveries[h].stage.Inserting?
  {
    var st := s.deliveries[h].stage;
    AtStage(s, h, if fault == Fine then Enqueuing(st.eid, st.row, st.target, 0) else Answered(InternalError)).(
      events := if fault == NotApplied then s.events else InsertRow(s.events, st.eid, st.row))
  }

  /** The foreign key on event_id decides whether the insert is accepted; an error is only logged. */
  function AfterEnqueue(cfg: Config, s: State, h: DeliveryId, jobId: JobId, at: int, fault: Fault): State
    requires h in s.deliveries && s.deliveries[h].stage.Enqueuing?
    requires s.deliveries[h].stage.next < |s.deliveries[h].stage.row.issueKeys|
  {
    var st := s.deliveries[h].stage;
    AtStage(s, h, st.(next := st.next + 1)).(
      jobs := if st.eid in s.events && fault != NotApplied
              then s.jobs[jobId := NewJob(st.eid, st.row.issueKeys[st.next], st.target, cfg.maxAttempts, at)]
              else s.jobs)
  }

  ghost function Do(cfg: Config, s: State, step: Step): State
    requires Enabled(s, step)
  {
    match step
    case Arrive(h, payload) => s.(deliveries := s.deliveries[h := Delivery(payload, Arrived)])
    case Check(h, fault) => AfterCheck(cfg, s, h, fault)
    case Insert(h, fault) => AfterInsert(s, h, fault)
    case EnqueueNext(h, jobId, at, fault) => AfterEnqueue(cfg, s, h, jobId, at, fault)
    case Finish(h) => AtStage(s, h, Answered(Accepted))
    case Crash(h) => AtStage(s, h, Crashed)
  }

  ghost predicate IsRun(cfg: Config, s: State, run: seq<Step>)
    decreases |run|
  {
    run == [] || (Enabled(s, run[0]) && IsRun(cfg, Do(cfg, s, run[0]), run[1..]))
  }

  ghost function Exec(cfg: Config, s: State, run: seq<Step>): State
    requires IsRun(cfg, s, run)
    decreases |run|
  {
    if run == [] then s else Exec(cfg, Do(cfg, s, run[0]), run[1..])
  }

  // ----- invariants -----

  predicate HoldsId(s: State, h: DeliveryId) {
    h in s.deliveries && (s.deliveries[h].stage.Inserting? || s.deliveries[h].stage.Enqueuing?)
  }

  ghost predicate EventsOk(s: State) {
    && (forall e :: e in s.events ==> e < s.nextEvent && Distinct(s.events[e].issueKeys))
    && (forall e, f :: e in s.events && f in s.events && s.events[e].key == s.events[f].key ==> e == f)
  }

  ghost predicate StageOk(cfg: Config, s: State, h: DeliveryId)
    requires HoldsId(s, h)
  {
    var st := s.deliveries[h].stage;
    && st.eid < s.nextEvent
    && TargetOfRow(cfg, st.row) == Some(st.target)
    && Distinct(st.row.issueKeys)
    && (st.Inserting? ==> st.eid !in s.events)
    && (st.Enqueuing? ==>
          && st.next <= |st.row.issueKeys|
          && (st.eid in s.events ==> s.events[st.eid] == st.row))
  }

  ghost predicate StagesOk(cfg: Config, s: State) {
    && (forall h :: HoldsId(s, h) ==> StageOk(cfg, s, h))
    && (forall h, g ::
          HoldsId(s, h) && HoldsId(s, g) && s.deliveries[h].stage.eid == s.deliveries[g].stage.eid ==> h == g)
  }

  predicate JobOk(cfg: Config, s: State, j: JobId)
    requires j in s.jobs
  {
    var r := s.jobs[j];
    && r.eventId in s.events
    && r.issueKey in s.events[r.eventId].issueKeys
    && TargetOfRow(cfg, s.events[r.eventId]) == Some(r.target)
    && r.status == Pending && r.attempts == 0 && r.maxAttempts == cfg.maxAttempts
  }

  /** A handler still enqueuing has only added jobs for the keys behind its loop index. */
  predicate JobBehind(s: State, h: DeliveryId, j: JobId)
    requires j in s.jobs && HoldsId(s, h)
  {
    var st := s.deliveries[h].stage;
    s.jobs[j].eventId == st.eid ==>
      st.Enqueuing? && st.next <= |st.row.issueKeys| && s.jobs[j].issueKey in st.row.issueKeys[..st.next]
  }

  ghost predicate JobsOk(cfg: Config, s: State) {
    && (forall j :: j in s.jobs ==> JobOk(cfg, s, j))
    && (forall j, h :: j in s.jobs && HoldsId(s, h) ==> JobBehind(s, h, j))
    && (forall j, k :: j in s.jobs && k in s.jobs && SameWork(s.jobs[j], s.jobs[k]) ==> j == k)
  }

  predicate SameWork(a: Row, b: Row) {
    a.eventId == b.eventId && a.issueKey == b.issueKey
  }

  ghost predicate Sound(cfg: Config, s: State) {
    && EventsOk(s) && StagesOk(cfg, s) && JobsOk(cfg, s)
  }

  lemma EventsOkStep(cfg: Config, s: State, step: Step)
    requires EventsOk(s) && StagesOk(cfg, s) && Enabled(s, step)
    ensures EventsOk(Do(cfg, s, step))
  {
    if step.Insert? {
      assert StageOk(cfg, s, step.h);
      if !KeyStored(s.events, s.deliveries[step.h].stage.row.key) {
        var key := s.deliveries[step.h].stage.row.key;
        assert forall e :: e in s.events ==> s.events[e].key != key;
      }
    }
  }

  lemma StageOkStep(cfg: Config, s: State, step: Step, h: DeliveryId)
    requires IssueKeys.ProjectKey(cfg.projectKey)
    requires EventsOk(s) && StagesOk(cfg, s) && Enabled(s, step) && HoldsId(Do(cfg, s, step), h)
    ensures StageOk(cfg, Do(cfg, s, step), h)
  {
    if HoldsId(s, h) { assert StageOk(cfg, s, h); }
    if step.Check? && step.h == h { PlanProperties(cfg, s.deliveries[h].payload); }
    if step.Insert? { assert StageOk(cfg, s, step.h); }
  }

  lemma OwnIdStep(cfg: Config, s: State, step: Step, h: DeliveryId)
    requires StagesOk(cfg, s) && Enabled(s, step) && HoldsId(Do(cfg, s, step), h)
    ensures if HoldsId(s, h) then Do(cfg, s, step).deliveries[h].stage.eid == s.deliveries[h].stage.eid
            else step == Check(h, Fine) && Do(cfg, s, step).deliveries[h].stage.eid == s.nextEvent
  {
  }

  lemma StagesOkStep(cfg: Config, s: State, step: Step)
    requires IssueKeys.ProjectKey(cfg.projectKey)
    requires EventsOk(s) && StagesOk(cfg, s) && Enabled(s, step)
    ensures StagesOk(cfg, Do(cfg, s, step))
  {
    var s' := Do(cfg, s, step);
    forall h | HoldsId(s', h) ensures StageOk(cfg, s', h) { StageOkStep(cfg, s, step, h); }
    forall h, g | HoldsId(s', h) && HoldsId(s', g) && s'.deliveries[h].stage.eid == s'.deliveries[g].stage.eid
      ensures h == g
    {
      OwnIdStep(cfg, s, step, h);
      OwnIdStep(cfg, s, step, g);
      if HoldsId(s, h) { assert StageOk(cfg, s, h); }
      if HoldsId(s, g) { assert StageOk(cfg, s, g); }
    }
  }

  lemma EventsGrow(cfg: Config, s: State, step: Step, e: EventId)
    requires StagesOk(cfg, s) && Enabled(s, step) && e in s.events
    ensures e in Do(cfg, s, step).events && Do(cfg, s, step).events[e] == s.events[e]
  {
    if step.Insert? { assert StageOk(cfg, s, step.h); }
  }

  /** A step adds at most one job, for the key at the loop index of a handler whose event is stored. */
  lemma JobsChange(cfg: Config, s: State, step: Step, j: JobId)
    requires Enabled(s, step)
    ensures j in s.jobs ==> j in Do(cfg, s, step).jobs && Do(cfg, s, step).jobs[j] == s.jobs[j]
    ensures j in Do(cfg, s, step).jobs && j !in s.jobs ==>
              && step.EnqueueNext? && step.jobId == j
              && var st := s.deliveries[step.h].stage;
                 st.eid in s.events &&
                 Do(cfg, s, step).jobs[j] ==
                 NewJob(st.eid, st.row.issueKeys[st.next], st.target, cfg.maxAttempts, step.at)
  {
  }

  lemma JobOkStep(cfg: Config, s: State, step: Step, j: JobId)
    requires StagesOk(cfg, s) && JobsOk(cfg, s) && Enabled(s, step) && j in Do(cfg, s, step).jobs
    ensures JobOk(cfg, Do(cfg, s, step), j)
  {
    JobsChange(cfg, s, step, j);
    EventsGrow(cfg, s, step, Do(cfg, s, step).jobs[j].eventId);
    if j in s.jobs {
      assert JobOk(cfg, s, j);
    } else {
      assert HoldsId(s, step.h) && StageOk(cfg, s, step.h);
    }
  }

  lemma JobBehindStep(cfg: Config, s: State, step: Step, j: JobId, h: DeliveryId)
    requires EventsOk(s) && StagesOk(cfg, s) && JobsOk(cfg, s) && Enabled(s, step)
    requires j in Do(cfg, s, step).jobs && HoldsId(Do(cfg, s, step), h)
    ensures JobBehind(Do(cfg, s, step), h, j)
  {
    JobsChange(cfg, s, step, j);
    OwnIdStep(cfg, s, step, h);
    if j in s.jobs {
      assert JobOk(cfg, s, j);
      if HoldsId(s, h) { assert JobBehind(s, h, j) && StageOk(cfg, s, h); IndexGrows(cfg, s, step, h, j); }
    } else {
      assert HoldsId(s, step.h) && StageOk(cfg, s, step.h);
      if h == step.h { NewKeyBehind(cfg, s, step); }
    }
  }

  lemma IndexGrows(cfg: Config, s: State, step: Step, h: DeliveryId, j: JobId)
    requires Enabled(s, step) && HoldsId(s, h) && HoldsId(Do(cfg, s, step), h)
    requires j in s.jobs && JobBehind(s, h, j) && j in Do(cfg, s, step).jobs && Do(cfg, s, step).jobs[j] == s.jobs[j]
    ensures JobBehind(Do(cfg, s, step), h, j)
  {
    var st, st' := s.deliveries[h].stage, Do(cfg, s, step).deliveries[h].stage;
    if st.Enqueuing? && st.next < |st.row.issueKeys| {
      assert st.row.issueKeys[..st.next + 1] == st.row.issueKeys[..st.next] + [st.row.issueKeys[st.next]];
    }
  }

  lemma NewKeyBehind(cfg: Config, s: State, step: Step)
    requires Enabled(s, step) && step.EnqueueNext? && step.jobId in Do(cfg, s, step).jobs
    ensures HoldsId(Do(cfg, s, step), step.h) && JobBehind(Do(cfg, s, step), step.h, step.jobId)
  {
    var st := s.deliveries[step.h].stage;
    assert st.row.issueKeys[st.next] in st.row.issueKeys[..st.next + 1];
  }

  lemma JobsOkStep(cfg: Config, s: State, step: Step)
    requires Sound(cfg, s) && Enabled(s, step)
    ensures JobsOk(cfg, Do(cfg, s, step))
  {
    var s' := Do(cfg, s, step);
    forall j | j in s'.jobs ensures JobOk(cfg, s', j) { JobOkStep(cfg, s, step, j); }
    forall j, h | j in s'.jobs && HoldsId(s', h) ensures JobBehind(s', h, j) { JobBehindStep(cfg, s, step, j, h); }
    forall j, k | j in s'.jobs && k in s'.jobs && SameWork(s'.jobs[j], s'.jobs[k])
      ensures j == k
    {
      JobsChange(cfg, s, step, j);
      JobsChange(cfg, s, step, k);
      if j in s.jobs && k !in s.jobs { NewWorkIsNew(cfg, s, step, j); }
      if k in s.jobs && j !in s.jobs { NewWorkIsNew(cfg, s, step, k); }
    }
  }

  /** The key at the loop index has no job yet, because keys are distinct and only earlier ones do. */
  lemma NewWorkIsNew(cfg: Config, s: State, step: Step, j: JobId)
    requires Sound(cfg, s) && Enabled(s, step) && step.EnqueueNext? && j in s.jobs
    ensures var st := s.deliveries[step.h].stage;
            !(s.jobs[j].eventId == st.eid && s.jobs[j].issueKey == st.row.issueKeys[st.next])
  {
    var st := s.deliveries[step.h].stage;
    assert HoldsId(s, step.h) && StageOk(cfg, s, step.h) && JobBehind(s, step.h, j);
    assert st.row.issueKeys[st.next] !in st.row.issueKeys[..st.next];
  }

  lemma SoundStep(cfg: Config, s: State, step: Step)
    requires IssueKeys.ProjectKey(cfg.projectKey) && Sound(cfg, s) && Enabled(s, step)
    ensures Sound(cfg, Do(cfg, s, step))
  {
    EventsOkStep(cfg, s, step);
    StagesOkStep(cfg, s, step);
    JobsOkStep(cfg, s, step);
  }

  lemma {:induction false} SoundRun(cfg: Config, s: State, run: seq<Step>)
    requires IssueKeys.ProjectKey(cfg.projectKey) && Sound(cfg, s) && IsRun(cfg, s, run)
    ensures Sound(cfg, Exec(cfg, s, run))
    decreases |run|
  {
    if run != [] {
      SoundStep(cfg, s, run[0]);
      SoundRun(cfg, Do(cfg, s, run[0]), run[1..]);
    }
  }

  // ----- duplicates -----

  /** The two jobs belong to events with the same idempotency key and move the same issue. */
  predicate SameKeyAndIssue(s: State, j: JobId, k: JobId)
    requires j in s.jobs && k in s.jobs
  {
    var a, b := s.jobs[j], s.jobs[k];
    && a.eventId in s.events && b.eventId in s.events
    && s.events[a.eventId].key == s.events[b.eventId].key
    && a.issueKey == b.issueKey
  }

  /** Whatever the interleaving, the failures and the crashes: at most one event per idempotency key,
      at most one job per (idempotency key, issue key), and no job without its event. */
  lemma NoDuplicates(cfg: Config, s: State, run: seq<Step>)
    requires IssueKeys.ProjectKey(cfg.projectKey) && Init(s) && IsRun(cfg, s, run)
    ensures var t := Exec(cfg, s, run);
            && (forall e, f :: e in t.events && f in t.events && t.events[e].key == t.events[f].key ==> e == f)
            && (forall j :: j in t.jobs ==> t.jobs[j].eventId in t.events)
            && (forall j, k :: j in t.jobs && k in t.jobs && SameKeyAndIssue(t, j, k) ==> j == k)
  {
    SoundRun(cfg, s, run);
    var t := Exec(cfg, s, run);
    assert forall j :: j in t.jobs ==> JobOk(cfg, t, j);
    forall j, k | j in t.jobs && k in t.jobs && SameKeyAndIssue(t, j, k)
      ensures j == k
    {
      assert SameWork(t.jobs[j], t.jobs[k]);
    }
  }

  /** The delivery that loses the silent conflict goes on with an id no event has, so every one of its
      enqueues is rejected and it leaves the tables alone. */
  lemma LoserAddsNothing(cfg: Config, s: State, step: Step)
    requires Sound(cfg, s) && Enabled(s, step) && step.Insert? && step.fault == Fine
    requires KeyStored(s.events, s.deliveries[step.h].stage.row.key)
    ensures var t := Do(cfg, s, step);
            && t.events == s.events && t.jobs == s.jobs
            && t.deliveries[step.h].stage.Enqueuing?
            && t.deliveries[step.h].stage.eid !in t.events
    ensures forall jobId, at, fault :: Enabled(Do(cfg, s, step), EnqueueNext(step.h, jobId, at, fault)) ==>
              Do(cfg, Do(cfg, s, step), EnqueueNext(step.h, jobId, at, fault)).jobs == s.jobs
  {
    assert HoldsId(s, step.h) && StageOk(cfg, s, step.h);
  }

  // ----- deliveries that change nothing -----

  /** This step of this delivery changes a table. */
  ghost predicate Touches(cfg: Config, s: State, step: Step, h: DeliveryId)
    requires Enabled(s, step)
  {
    step.h == h && (Do(cfg, s, step).events != s.events || Do(cfg, s, step).jobs != s.jobs)
  }

  ghost predicate NeverTouches(cfg: Config, s: State, run: seq<Step>, h: DeliveryId)
    requires IsRun(cfg, s, run)
    decreases |run|
  {
    run == [] || (!Touches(cfg, s, run[0], h) && NeverTouches(cfg, Do(cfg, s, run[0]), run[1..], h))
  }

  /** Past its insert a delivery can only be answered "accepted" or "internal error", or crash. */
  predicate PastInsert(s: State, h: DeliveryId) {
    h in s.deliveries &&
    match s.deliveries[h].stage
    case Enqueuing(_, _, _, _) => true
    case Answered(r) => r == Accepted || r == InternalError
    case Crashed => true
    case _ => false
  }

  /** Changing a table takes a delivery past its insert, and nothing brings it back. */
  lemma UntouchedStep(cfg: Config, s: State, step: Step, h: DeliveryId)
    requires Enabled(s, step) && !PastInsert(Do(cfg, s, step), h)
    ensures !PastInsert(s, h) && !Touches(cfg, s, step, h)
  {
  }

  lemma {:induction false} UntouchedRun(cfg: Config, s: State, run: seq<Step>, h: DeliveryId)
    requires IsRun(cfg, s, run) && !PastInsert(Exec(cfg, s, run), h)
    ensures !PastInsert(s, h) && NeverTouches(cfg, s, run, h)
    decreases |run|
  {
    if run != [] {
      UntouchedRun(cfg, Do(cfg, s, run[0]), run[1..], h);
      UntouchedStep(cfg, s, run[0], h);
    }
  }

  /** A delivery answered "ignored" or "already processed" has left both tables unchanged in every one
      of its steps, in any run at all. */
  lemma UnacceptedChangesNothing(cfg: Config, s: State, run: seq<Step>, h: DeliveryId)
    requires IsRun(cfg, s, run)
    requires var t := Exec(cfg, s, run);
             h in t.deliveries &&
             (t.deliveries[h].stage == Answered(Ignored) || t.deliveries[h].stage == Answered(AlreadyProcessed))
    ensures NeverTouches(cfg, s, run, h)
  {
    UntouchedRun(cfg, s, run, h);
  }
}
