/**
 Ingestion and queue together: webhook handlers insert jobs into the table that workers claim from.
 Every joint run is a run of each half, so their promises meet: what Jira sees per idempotency key
 and issue key.
 */
module EndToEnd {
  import opened Domain
  import Coverage
  import Events
  import Executor
  import Ingest
  import IssueKeys
  import Queue
  import opened QueueAccounting
  import QueueJira
  import QueueSafety
  import QueueTiming

  datatype Config = Config(events: Events.Config, queue: Queue.Config)

  /** `hooks.jobs` is what ingestion inserted; `queue.rows` is the same table as workers changed it. */
  datatype State = State(hooks: Ingest.State, queue: Queue.State)

  datatype Step = Hook(hook: Ingest.Step) | Work(work: Queue.Step)

  ghost predicate Init(s: State) {
    Ingest.Init(s.hooks) && Queue.Init(s.queue)
  }

  /** This statement of a handler inserts a job. */
  predicate Adds(s: Ingest.State, step: Ingest.Step)
    requires Ingest.Enabled(s, step)
  {
    step.EnqueueNext? && s.deliveries[step.h].stage.eid in s.events && step.fault != Ingest.NotApplied
  }

  /** The steps the queue takes with a joint step: none, a worker's, or the insert of a handler's job. */
  ghost function QueueSteps(s: State, step: Step): seq<Queue.Step>
    requires step.Hook? ==> Ingest.Enabled(s.hooks, step.hook)
  {
    match step
    case Work(work) => [work]
    case Hook(hook) =>
      if Adds(s.hooks, hook) then
        var st := s.hooks.deliveries[hook.h].stage;
        [Queue.Enqueue(hook.jobId, st.eid, st.row.issueKeys[st.next], st.target, hook.at)]
      else []
  }

  ghost predicate Enabled(c: Config, s: State, step: Step) {
    && (step.Hook? ==> Ingest.Enabled(s.hooks, step.hook))
    && (step.Work? ==> !step.work.Enqueue?)
    && forall q :: q in QueueSteps(s, step) ==> Queue.Enabled(c.queue, s.queue, q)
  }

  ghost function Do(c: Config, s: State, step: Step): State
    requires Enabled(c, s, step)
  {
    var q := QueueSteps(s, step);
    State(if step.Hook? then Ingest.Do(c.events, s.hooks, step.hook) else s.hooks,
          if q == [] then s.queue else Queue.Do(c.queue, s.queue, q[0]))
  }

  ghost predicate IsRun(c: Config, s: State, run: seq<Step>)
    decreases |run|
  {
    run == [] || (Enabled(c, s, run[0]) && IsRun(c, Do(c, s, run[0]), run[1..]))
  }

  ghost function Exec(c: Config, s: State, run: seq<Step>): State
    requires IsRun(c, s, run)
    decreases |run|
  {
    if run == [] then s else Exec(c, Do(c, s, run[0]), run[1..])
  }

  // ----- a joint run is a run of each half -----

  /** The handlers' part of a joint run. */
  ghost function Hooks(c: Config, s: State, run: seq<Step>): (part: seq<Ingest.Step>)
    requires IsRun(c, s, run)
    ensures Ingest.IsRun(c.events, s.hooks, part)
    ensures Ingest.Exec(c.events, s.hooks, part) == Exec(c, s, run).hooks
    decreases |run|
  {
    if run == [] then []
    else
      var rest := Hooks(c, Do(c, s, run[0]), run[1..]);
      if run[0].Work? then rest
      else
        assert ([run[0].hook] + rest)[1..] == rest;
        [run[0].hook] + rest
  }

  /** The queue's part of a joint run. */
  ghost function Works(c: Config, s: State, run: seq<Step>): (part: seq<Queue.Step>)
    requires IsRun(c, s, run)
    ensures Queue.IsRun(c.queue, s.queue, part)
    ensures Queue.Exec(c.queue, s.queue, part) == Exec(c, s, run).queue
    decreases |run|
  {
    if run == [] then []
    else
      var q, rest := QueueSteps(s, run[0]), Works(c, Do(c, s, run[0]), run[1..]);
      if q == [] then rest
      else
        assert ([q[0]] + rest)[1..] == rest;
        [q[0]] + rest
  }

  // ----- both halves speak of the same jobs -----

  predicate SameTask(a: Row, b: Row) {
    a.eventId == b.eventId && a.issueKey == b.issueKey && a.target == b.target
  }

  ghost predicate Agree(s: State) {
    && s.queue.rows.Keys == s.hooks.jobs.Keys
    && forall j :: j in s.queue.rows ==> SameTask(s.queue.rows[j], s.hooks.jobs[j])
  }

  lemma WorkAddsNothing(cfg: Queue.Config, s: Queue.State, step: Queue.Step)
    requires Queue.Enabled(cfg, s, step) && !step.Enqueue?
    ensures Queue.Do(cfg, s, step).rows.Keys == s.rows.Keys
  {
  }

  lemma AgreeWork(c: Config, s: State, work: Queue.Step)
    requires QueueSafety.LocksOk(c.queue, s.queue) && Agree(s) && Enabled(c, s, Work(work))
    requires Queue.Enabled(c.queue, s.queue, work)
    ensures Agree(State(s.hooks, Queue.Do(c.queue, s.queue, work)))
  {
    WorkAddsNothing(c.queue, s.queue, work);
    var after := Queue.Do(c.queue, s.queue, work).rows;
    forall j | j in s.queue.rows
      ensures j in after && SameTask(s.queue.rows[j], after[j])
    {
      QueueJira.IdentityStep(c.queue, s.queue, work, j);
    }
  }

  lemma AgreeHook(c: Config, s: State, hook: Ingest.Step)
    requires Agree(s) && Enabled(c, s, Hook(hook))
    ensures Agree(Do(c, s, Hook(hook)))
  {
  }

  lemma AgreeStep(c: Config, s: State, step: Step)
    requires QueueSafety.Sound(c.queue, s.queue) && Agree(s) && Enabled(c, s, step)
    ensures QueueSafety.Sound(c.queue, Do(c, s, step).queue) && Agree(Do(c, s, step))
  {
    var q := QueueSteps(s, step);
    if q != [] {
      assert q[0] in q;
      QueueSafety.SoundStep(c.queue, s.queue, q[0]);
    }
    match step
    case Work(work) => AgreeWork(c, s, work);
    case Hook(hook) => AgreeHook(c, s, hook);
  }

  lemma {:induction false} AgreeRun(c: Config, s: State, run: seq<Step>)
    requires QueueSafety.Sound(c.queue, s.queue) && Agree(s) && IsRun(c, s, run)
    ensures Agree(Exec(c, s, run))
    decreases |run|
  {
    if run != [] {
      AgreeStep(c, s, run[0]);
      AgreeRun(c, Do(c, s, run[0]), run[1..]);
    }
  }

  // ----- without a configured transition nothing is moved -----

  lemma UnconfiguredStep(cfg: Queue.Config, s: Queue.State, step: Queue.Step, id: JobId)
    requires QueueJira.JobsOk(cfg, s) && Queue.Enabled(cfg, s, step)
    requires id in s.rows ==> Executor.NotConfigured(cfg.executor, s.rows[id].target)
    ensures !QueueJira.MovedOf(cfg, id)(s, step)
  {
    if step.Execute? { assert QueueJira.JobOk(cfg, s, step.h); }
  }

  lemma {:induction false} UnconfiguredRun(cfg: Queue.Config, s: Queue.State, run: seq<Queue.Step>, id: JobId)
    requires QueueSafety.Sound(cfg, s) && QueueJira.JobsOk(cfg, s) && Queue.IsRun(cfg, s, run)
    requires var e := Queue.Exec(cfg, s, run);
             id in e.rows && Executor.NotConfigured(cfg.executor, e.rows[id].target)
    ensures Count(cfg, s, run, QueueJira.MovedOf(cfg, id)) == 0
    decreases |run|
  {
    if run != [] {
      if id in s.rows { QueueJira.TargetFixed(cfg, s, run, id); }
      UnconfiguredStep(cfg, s, run[0], id);
      QueueSafety.SoundStep(cfg, s, run[0]);
      QueueJira.JobsOkStep(cfg, s, run[0]);
      UnconfiguredRun(cfg, Queue.Do(cfg, s, run[0]), run[1..], id);
    }
  }

  lemma OneJobOnce(cfg: Queue.Config, s: Queue.State, run: seq<Queue.Step>, id: JobId)
    requires Queue.Init(s) && Queue.IsRun(cfg, s, run) && Queue.GentleRun(cfg, s, run)
    requires id in Queue.Exec(cfg, s, run).rows
    ensures Count(cfg, s, run, QueueJira.MovedOf(cfg, id)) <= 1 + Count(cfg, s, run, QueueJira.LostOf(id))
  {
    if QueueJira.Configured(cfg, Queue.Exec(cfg, s, run), id) {
      QueueJira.TransitionsSeen(cfg, s, run, id);
    } else {
      UnconfiguredRun(cfg, s, run, id);
    }
  }

  // ----- what Jira sees for one change and one issue -----

  /** A job inserted for this idempotency key and this issue. */
  predicate JobFor(t: Ingest.State, id: JobId, key: string, issue: string) {
    && id in t.jobs && t.jobs[id].issueKey == issue
    && t.jobs[id].eventId in t.events && t.events[t.jobs[id].eventId].key == key
  }

  /** Jira confirms a transition made by any job of this key and issue. */
  ghost function MovedFor(c: Config, t: Ingest.State, key: string, issue: string): (Queue.State, Queue.Step) -> bool {
    (s: Queue.State, step: Queue.Step) =>
      exists id :: JobFor(t, id, key, issue) && QueueJira.MovedOf(c.queue, id)(s, step)
  }

  /** The news of such a transition is lost: its worker crashes, or its mark is not applied. */
  ghost function LostFor(t: Ingest.State, key: string, issue: string): (Queue.State, Queue.Step) -> bool {
    (s: Queue.State, step: Queue.Step) =>
      exists id :: JobFor(t, id, key, issue) && QueueJira.LosesSuccess(s, step, id)
  }

  lemma {:induction false} CountSame(cfg: Queue.Config, s: Queue.State, run: seq<Queue.Step>,
                                     p: (Queue.State, Queue.Step) -> bool, q: (Queue.State, Queue.Step) -> bool)
    requires Queue.IsRun(cfg, s, run) && forall u, step :: p(u, step) == q(u, step)
    ensures Count(cfg, s, run, p) == Count(cfg, s, run, q)
    decreases |run|
  {
    if run != [] { CountSame(cfg, Queue.Do(cfg, s, run[0]), run[1..], p, q); }
  }

  lemma {:induction false} CountNever(cfg: Queue.Config, s: Queue.State, run: seq<Queue.Step>,
                                      p: (Queue.State, Queue.Step) -> bool)
    requires Queue.IsRun(cfg, s, run) && forall u, step :: !p(u, step)
    ensures Count(cfg, s, run, p) == 0
    decreases |run|
  {
    if run != [] { CountNever(cfg, Queue.Do(cfg, s, run[0]), run[1..], p); }
  }

  lemma OneJobPerKeyAndIssue(cfg: Events.Config, t: Ingest.State, key: string, issue: string, j: JobId)
    requires Ingest.Sound(cfg, t) && JobFor(t, j, key, issue)
    ensures forall id :: JobFor(t, id, key, issue) <==> id == j
  {
    forall id | JobFor(t, id, key, issue) ensures id == j { assert Ingest.SameWork(t.jobs[id], t.jobs[j]); }
  }

  /** With only one job meant, the two events are that job's. */
  lemma CountsOfOneJob(c: Config, s: Queue.State, run: seq<Queue.Step>, t: Ingest.State,
                       key: string, issue: string, j: JobId)
    requires Queue.IsRun(c.queue, s, run) && forall id :: JobFor(t, id, key, issue) <==> id == j
    ensures Count(c.queue, s, run, MovedFor(c, t, key, issue)) == Count(c.queue, s, run, QueueJira.MovedOf(c.queue, j))
    ensures Count(c.queue, s, run, LostFor(t, key, issue)) == Count(c.queue, s, run, QueueJira.LostOf(j))
  {
    assert JobFor(t, j, key, issue);
    CountSame(c.queue, s, run, MovedFor(c, t, key, issue), QueueJira.MovedOf(c.queue, j));
    CountSame(c.queue, s, run, LostFor(t, key, issue), QueueJira.LostOf(j));
  }

  /** What both halves say of the end of a joint run. */
  lemma JointEnd(c: Config, s: State, run: seq<Step>)
    requires IssueKeys.ProjectKey(c.events.projectKey) && Init(s) && IsRun(c, s, run)
    ensures Ingest.Sound(c.events, Exec(c, s, run).hooks) && Agree(Exec(c, s, run))
  {
    Ingest.SoundRun(c.events, s.hooks, Hooks(c, s, run));
    AgreeRun(c, s, run);
  }

  /** Redeliveries, races between handlers, lost acknowledgements, crashes and retries together: for
      each idempotency key and issue key, over all the jobs that could be meant, Jira confirms at most
      one transition more than confirmations were lost. */
  lemma MovedOncePerKeyAndIssue(c: Config, s: State, run: seq<Step>, key: string, issue: string)
    requires IssueKeys.ProjectKey(c.events.projectKey) && Init(s) && IsRun(c, s, run)
    requires Queue.GentleRun(c.queue, s.queue, Works(c, s, run))
    ensures var t, part := Exec(c, s, run).hooks, Works(c, s, run);
            Count(c.queue, s.queue, part, MovedFor(c, t, key, issue))
              <= 1 + Count(c.queue, s.queue, part, LostFor(t, key, issue))
  {
    var t, part := Exec(c, s, run).hooks, Works(c, s, run);
    JointEnd(c, s, run);
    if j :| JobFor(t, j, key, issue) {
      OneJobPerKeyAndIssue(c.events, t, key, issue, j);
      CountsOfOneJob(c, s.queue, part, t, key, issue, j);
      OneJobOnce(c.queue, s.queue, part, j);
    } else {
      CountNever(c.queue, s.queue, part, MovedFor(c, t, key, issue));
    }
  }

  /** The same under the timing bound alone. */
  lemma TimelyMovedOnce(c: Config, b: QueueTiming.Bounds, s: State, run: seq<Step>, key: string, issue: string)
    requires IssueKeys.ProjectKey(c.events.projectKey) && Init(s) && IsRun(c, s, run)
    requires QueueTiming.TimelyRun(c.queue, b, s.queue, Works(c, s, run))
    requires c.queue.stuckTimeout >= b.T + QueueTiming.Delay(c.queue, b)
    ensures var t, part := Exec(c, s, run).hooks, Works(c, s, run);
            Count(c.queue, s.queue, part, MovedFor(c, t, key, issue))
              <= 1 + Count(c.queue, s.queue, part, LostFor(t, key, issue))
  {
    QueueTiming.TimedExclusion(c.queue, b, s.queue, Works(c, s, run));
    MovedOncePerKeyAndIssue(c, s, run, key, issue);
  }

  // ----- nothing asked for is forgotten -----

  /** When every delivery has ended and none of the losing steps was taken, each key of each stored
      event has exactly one row in the table the workers share, with the target computed from the
      event; and if that row is completed, Jira confirmed its transition or none is configured. No
      timing is assumed. */
  lemma EveryKeyIsCarried(c: Config, s: State, run: seq<Step>, e: EventId, i: nat) returns (j: JobId)
    requires IssueKeys.ProjectKey(c.events.projectKey) && Init(s) && IsRun(c, s, run)
    requires var t := Exec(c, s, run).hooks;
             Coverage.IsKey(t, e, i) && forall h :: h in t.deliveries ==> Coverage.Ended(t, h)
    requires !Coverage.LosesSomewhere(c.events, s.hooks, Hooks(c, s, run))
    ensures var t, rows := Exec(c, s, run).hooks, Exec(c, s, run).queue.rows;
            && j in rows && rows[j].eventId == e && rows[j].issueKey == t.events[e].issueKeys[i]
            && Events.TargetOfRow(c.events, t.events[e]) == Some(rows[j].target)
            && (forall k :: k in rows && rows[k].eventId == e && rows[k].issueKey == rows[j].issueKey ==> k == j)
            && (rows[j].status == Completed ==>
                  || Executor.NotConfigured(c.queue.executor, rows[j].target)
                  || Count(c.queue, s.queue, Works(c, s, run), QueueJira.MovedOf(c.queue, j)) >= 1)
  {
    var t, rows := Exec(c, s, run).hooks, Exec(c, s, run).queue.rows;
    Coverage.JobsRefineEvents(c.events, s.hooks, Hooks(c, s, run));
    JointEnd(c, s, run);
    assert Coverage.HasJob(t, e, t.events[e].issueKeys[i]);
    j :| j in t.jobs && t.jobs[j].eventId == e && t.jobs[j].issueKey == t.events[e].issueKeys[i];
    forall k | k in rows && rows[k].eventId == e && rows[k].issueKey == rows[j].issueKey
      ensures k == j
    {
      assert Ingest.SameWork(t.jobs[k], t.jobs[j]);
    }
    if rows[j].status == Completed { QueueJira.CompletedWasMoved(c.queue, s.queue, Works(c, s, run), j); }
  }
}
