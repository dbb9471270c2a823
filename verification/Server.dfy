/** The webhook handler as code over the two tables, and the fact that an undisturbed call of it is one
    run of the interleaved ingestion model. */
module Server {
  import opened Domain
  import opened JobTable
  import opened Events
  import opened Ingest

  /** The jobs table after the first n keys of an event have been enqueued under fresh ids. */
  function AddJobs(cfg: Config, jobs: Rows, base: JobId, eid: EventId, keys: seq<string>, n: nat,
                   target: WorkflowState, at: int): Rows
    requires n <= |keys|
  {
    if n == 0 then jobs
    else
      AddJobs(cfg, jobs, base, eid, keys, n - 1, target, at)[
        base + n - 1 := NewJob(eid, keys[n - 1], target, cfg.maxAttempts, at)]
  }

  ghost function SoloResponse(cfg: Config, events: map<EventId, EventRow>, payload: Payload): Response {
    if ParsePayload(payload).kind.Unrecognized? then Ignored
    else if KeyStored(events, ParsePayload(payload).key) then AlreadyProcessed
    else if Plan(cfg, payload).None? then Ignored
    else Accepted
  }

  /** What an accepted delivery adds: its row under a new id, and for each of its issue keys one job,
      pending, for the state it asks for, with the configured limit. */
  ghost predicate Added(cfg: Config, payload: Payload, at: int, eid: EventId, base: JobId,
                        events: map<EventId, EventRow>, jobs: Rows, events': map<EventId, EventRow>, jobs': Rows)
  {
    var keys := KeysAsked(cfg.projectKey, payload);
    && events' == events[eid := RowAsked(cfg.projectKey, payload)]
    && (forall j :: j in jobs' <==> j in jobs || base <= j < base + |keys|)
    && (forall j :: j in jobs ==> j in jobs' && jobs'[j] == jobs[j])
    && exists target :: Asks(cfg, payload, target) && EachKeyAdded(cfg, at, eid, base, keys, target, jobs')
  }

  predicate EachKeyAdded(cfg: Config, at: int, eid: EventId, base: JobId, keys: seq<string>, target: WorkflowState,
                         jobs: Rows)
  {
    forall i :: 0 <= i < |keys| ==>
      && base + i in jobs
      && jobs[base + i] == Row(eid, keys[i], target, Pending, 0, cfg.maxAttempts, at, None, None)
  }

  ghost predicate AsksSomething(cfg: Config, payload: Payload) {
    exists target :: Asks(cfg, payload, target)
  }

  lemma PlanSomething(cfg: Config, payload: Payload)
    ensures Plan(cfg, payload).Some? <==> KeysAsked(cfg.projectKey, payload) != [] && AsksSomething(cfg, payload)
    ensures Plan(cfg, payload).Some? ==>
              var (row, target) := Plan(cfg, payload).value;
              Asks(cfg, payload, target) && row == RowAsked(cfg.projectKey, payload)
  {
    if Plan(cfg, payload).Some? {
      var (row, target) := Plan(cfg, payload).value;
      PlanExactly(cfg, payload, row, target);
    }
    if target :| Asks(cfg, payload, target) {
      PlanExactly(cfg, payload, RowAsked(cfg.projectKey, payload), target);
    }
  }

  lemma {:induction false} AddedJobs(cfg: Config, jobs: Rows, base: JobId, eid: EventId, keys: seq<string>, n: nat,
                                     target: WorkflowState, at: int)
    requires n <= |keys| && forall j :: j in jobs ==> j < base
    ensures var after := AddJobs(cfg, jobs, base, eid, keys, n, target, at);
            && (forall j :: j in after <==> j in jobs || base <= j < base + n)
            && (forall j :: j in jobs ==> j in after && after[j] == jobs[j])
            && EachKeyAdded(cfg, at, eid, base, keys[..n], target, after)
  {
    if n > 0 {
      AddedJobs(cfg, jobs, base, eid, keys, n - 1, target, at);
      assert keys[..n] == keys[..n - 1] + [keys[n - 1]];
    }
  }

  /** The answer by the payload and the stored keys. */
  ghost predicate AnsweredRight(cfg: Config, events: map<EventId, EventRow>, payload: Payload, response: Response) {
    response ==
      if !Recognized(payload) then Ignored
      else if KeyStored(events, KeyAsked(payload)) then AlreadyProcessed
      else if KeysAsked(cfg.projectKey, payload) != [] && AsksSomething(cfg, payload) then Accepted
      else Ignored
  }

  lemma SoloExactly(cfg: Config, events: map<EventId, EventRow>, payload: Payload)
    ensures AnsweredRight(cfg, events, payload, SoloResponse(cfg, events, payload))
  {
    ParsedAsAsked(payload);
    PlanSomething(cfg, payload);
  }

  lemma AddedByPlan(cfg: Config, payload: Payload, at: int, eid: EventId, base: JobId,
                    events: map<EventId, EventRow>, jobs: Rows)
    requires Plan(cfg, payload).Some? && forall j :: j in jobs ==> j < base
    ensures var (row, target) := Plan(cfg, payload).value;
            Added(cfg, payload, at, eid, base, events, jobs, events[eid := row],
                  AddJobs(cfg, jobs, base, eid, row.issueKeys, |row.issueKeys|, target, at))
  {
    var (row, target) := Plan(cfg, payload).value;
    PlanSomething(cfg, payload);
    AddedJobs(cfg, jobs, base, eid, row.issueKeys, |row.issueKeys|, target, at);
    assert row.issueKeys[..|row.issueKeys|] == row.issueKeys;
  }

  class WebhookServer {
    const cfg: Config
    var events: map<EventId, EventRow>
    var jobs: Rows
    var nextEvent: EventId
    var nextJob: JobId

    ghost predicate Valid()
      reads this
    {
      && (forall e :: e in events ==> e < nextEvent)
      && (forall j :: j in jobs ==> j < nextJob)
    }

    constructor (cfg: Config)
      ensures Valid() && this.cfg == cfg && events == map[] && jobs == map[]
    {
      this.cfg := cfg;
      events, jobs, nextEvent, nextJob := map[], map[], 0, 0;
    }

    /** SELECT EXISTS(... WHERE idempotency_key = $1) */
    method ExistsByIdempotencyKey(key: string) returns (found: bool)
      ensures found <==> KeyStored(events, key)
    {
      var rest := events.Keys;
      found := false;
      while rest != {} && !found
        invariant rest <= events.Keys
        invariant found ==> KeyStored(events, key)
        invariant forall e :: e in events && events[e].key == key ==> found || e in rest
        decreases |rest|
      {
        var e :| e in rest;
        if events[e].key == key { found := true; }
        rest := rest - {e};
      }
    }

    /** ON CONFLICT (idempotency_key) DO NOTHING: no error either way. */
    method Insert(eid: EventId, row: EventRow)
      modifies `events
      ensures events == InsertRow(old(events), eid, row)
    {
      var conflict := ExistsByIdempotencyKey(row.key);
      if !conflict { events := events[eid := row]; }
    }

    /** The foreign key rejects a job whose event is not stored. */
    method Enqueue(jobId: JobId, row: Row) returns (ok: bool)
      modifies `jobs
      ensures ok <==> row.eventId in events && jobId !in old(jobs)
      ensures jobs == if ok then old(jobs)[jobId := row] else old(jobs)
    {
      ok := row.eventId in events && jobId !in jobs;
      if ok { jobs := jobs[jobId := row]; }
    }

    /** One job per issue key, under fresh ids; an error would only be logged. */
    method EnqueueAll(eid: EventId, keys: seq<string>, target: WorkflowState, at: int)
      requires Valid() && eid in events
      modifies `jobs, `nextJob
      ensures Valid()
      ensures jobs == AddJobs(cfg, old(jobs), old(nextJob), eid, keys, |keys|, target, at)
    {
      for i := 0 to |keys|
        invariant Valid() && nextJob == old(nextJob) + i
        invariant jobs == AddJobs(cfg, old(jobs), old(nextJob), eid, keys, i, target, at)
      {
        var ok := Enqueue(nextJob, NewJob(eid, keys[i], target, cfg.maxAttempts, at));
        nextJob := nextJob + 1;
      }
    }

    /** One delivery handled with nothing in between: answered as the tables and the payload demand, one
        job per issue key when accepted, and no table touched otherwise. */
    method HandleGitLab(payload: Payload, at: int) returns (response: Response)
      requires Valid()
      modifies this
      ensures Valid()
      ensures response == SoloResponse(cfg, old(events), payload)
      ensures response == Accepted ==>
                var (row, target) := Plan(cfg, payload).value;
                && events == old(events)[old(nextEvent) := row]
                && jobs == AddJobs(cfg, old(jobs), old(nextJob), old(nextEvent),
                                   row.issueKeys, |row.issueKeys|, target, at)
      ensures response != Accepted ==> events == old(events) && jobs == old(jobs)
      ensures AnsweredRight(cfg, old(events), payload, response)
      ensures response == Accepted ==>
                Added(cfg, payload, at, old(nextEvent), old(nextJob), old(events), old(jobs), events, jobs)
    {
      SoloExactly(cfg, events, payload);
      var event := ParsePayload(payload);
      if event.kind == Unrecognized { return Ignored; }
      var found := ExistsByIdempotencyKey(event.key);
      if found { return AlreadyProcessed; }
      var plan := Plan(cfg, payload);
      if plan.None? { return Ignored; }
      var (row, target) := plan.value;
      var eid := nextEvent;
      nextEvent := nextEvent + 1;
      Insert(eid, row);
      AddedByPlan(cfg, payload, at, eid, nextJob, old(events), old(jobs));
      EnqueueAll(eid, row.issueKeys, target, at);
      return Accepted;
    }
  }

  // ----- the undisturbed call as a run -----

  function EnqueueSteps(h: DeliveryId, base: JobId, at: int, i: nat, n: nat): seq<Step>
    requires i <= n
    decreases n - i
  {
    if i == n then [Finish(h)] else [EnqueueNext(h, base + i, at, Fine)] + EnqueueSteps(h, base, at, i + 1, n)
  }

  lemma {:induction false} AddJobsFresh(cfg: Config, jobs: Rows, base: JobId, eid: EventId, keys: seq<string>, n: nat,
                                        target: WorkflowState, at: int)
    requires n <= |keys| && forall j :: j in jobs ==> j < base
    ensures forall j :: j in AddJobs(cfg, jobs, base, eid, keys, n, target, at) ==> j < base + n
  {
    if n > 0 { AddJobsFresh(cfg, jobs, base, eid, keys, n - 1, target, at); }
  }

  lemma {:induction false} EnqueueRun(cfg: Config, s: State, h: DeliveryId, jobs: Rows, base: JobId, at: int, i: nat)
    requires h in s.deliveries && s.deliveries[h].stage.Enqueuing? && s.deliveries[h].stage.next == i
    requires s.deliveries[h].stage.eid in s.events && i <= |s.deliveries[h].stage.row.issueKeys|
    requires forall j :: j in jobs ==> j < base
    requires var st := s.deliveries[h].stage;
             s.jobs == AddJobs(cfg, jobs, base, st.eid, st.row.issueKeys, i, st.target, at)
    ensures var st := s.deliveries[h].stage;
            var n := |st.row.issueKeys|;
            && IsRun(cfg, s, EnqueueSteps(h, base, at, i, n))
            && var t := Exec(cfg, s, EnqueueSteps(h, base, at, i, n));
               && t.events == s.events
               && t.jobs == AddJobs(cfg, jobs, base, st.eid, st.row.issueKeys, n, st.target, at)
               && h in t.deliveries && t.deliveries[h].stage == Answered(Accepted)
    decreases |s.deliveries[h].stage.row.issueKeys| - i
  {
    var st := s.deliveries[h].stage;
    var n := |st.row.issueKeys|;
    var steps := EnqueueSteps(h, base, at, i, n);
    if i == n {
      assert steps[1..] == [];
    } else {
      AddJobsFresh(cfg, jobs, base, st.eid, st.row.issueKeys, i, st.target, at);
      assert Enabled(s, steps[0]);
      assert steps[1..] == EnqueueSteps(h, base, at, i + 1, n);
      EnqueueRun(cfg, Do(cfg, s, steps[0]), h, jobs, base, at, i + 1);
    }
  }

  /** The steps an undisturbed delivery takes. */
  ghost function SoloSteps(cfg: Config, s: State, h: DeliveryId, payload: Payload, base: JobId, at: int): seq<Step> {
    [Arrive(h, payload), Check(h, Fine)] +
    (if SoloResponse(cfg, s.events, payload) == Accepted
     then [Insert(h, Fine)] + EnqueueSteps(h, base, at, 0, |Plan(cfg, payload).value.0.issueKeys|)
     else [])
  }

  /** What `HandleGitLab` does to the tables and answers is what its steps do in the interleaved model. */
  lemma SoloIsRun(cfg: Config, s: State, h: DeliveryId, payload: Payload, base: JobId, at: int)
    requires h !in s.deliveries
    requires (forall j :: j in s.jobs ==> j < base) && (forall e :: e in s.events ==> e < s.nextEvent)
    ensures IsRun(cfg, s, SoloSteps(cfg, s, h, payload, base, at))
    ensures var t := Exec(cfg, s, SoloSteps(cfg, s, h, payload, base, at));
            && h in t.deliveries && t.deliveries[h].stage == Answered(SoloResponse(cfg, s.events, payload))
            && if SoloResponse(cfg, s.events, payload) == Accepted then
                 var (row, target) := Plan(cfg, payload).value;
                 && t.events == s.events[s.nextEvent := row]
                 && t.jobs == AddJobs(cfg, s.jobs, base, s.nextEvent, row.issueKeys, |row.issueKeys|, target, at)
               else t.events == s.events && t.jobs == s.jobs
  {
    var steps := SoloSteps(cfg, s, h, payload, base, at);
    var s1 := Do(cfg, s, steps[0]);
    var s2 := Do(cfg, s1, steps[1]);
    if SoloResponse(cfg, s.events, payload) == Accepted {
      var (row, target) := Plan(cfg, payload).value;
      var rest := EnqueueSteps(h, base, at, 0, |row.issueKeys|);
      assert steps[1..][1..] == [Insert(h, Fine)] + rest;
      assert ([Insert(h, Fine)] + rest)[1..] == rest;
      assert row.key == ParsePayload(payload).key;
      var s3 := Do(cfg, s2, Insert(h, Fine));
      assert s3.events == s.events[s.nextEvent := row];
      EnqueueRun(cfg, s3, h, s.jobs, base, at, 0);
      assert IsRun(cfg, s2, [Insert(h, Fine)] + rest);
      assert Exec(cfg, s2, [Insert(h, Fine)] + rest) == Exec(cfg, s3, rest);
    } else {
      assert steps[1..][1..] == [];
    }
    assert IsRun(cfg, s1, steps[1..]);
    assert Exec(cfg, s, steps) == Exec(cfg, s1, steps[1..]) == Exec(cfg, s2, steps[1..][1..]);
  }
}
