/** What an answer to a webhook delivery tells the sender, in any interleaving with faults and crashes. */
module Answers {
  import opened Domain
  import opened Events
  import opened Ingest
  import IssueKeys

  /** The delivery mentions an issue and asks for a state, by the payload alone. */
  ghost predicate Acts(cfg: Config, p: Payload) {
    KeysAsked(cfg.projectKey, p) != [] && exists target :: Asks(cfg, p, target)
  }

  lemma ActsExactly(cfg: Config, p: Payload)
    ensures Acts(cfg, p) <==> Plan(cfg, p).Some?
    ensures Plan(cfg, p).Some? ==> Recognized(p) && Plan(cfg, p).value.0.key == KeyAsked(p)
  {
    ParsedAsAsked(p);
    if Plan(cfg, p).Some? { PlanExactly(cfg, p, Plan(cfg, p).value.0, Plan(cfg, p).value.1); }
    if target :| Asks(cfg, p, target) { PlanExactly(cfg, p, RowAsked(cfg.projectKey, p), target); }
  }

  /** Accepted deliveries act, and an event with their key is stored, theirs or one that won; an already
      processed one's key is stored; an ignored one does not act. */
  ghost predicate Truthful(cfg: Config, s: State, h: DeliveryId)
    requires h in s.deliveries
  {
    var p := s.deliveries[h].payload;
    match s.deliveries[h].stage
    case Inserting(_, row, target) => Plan(cfg, p) == Some((row, target))
    case Enqueuing(_, row, target, _) => Plan(cfg, p) == Some((row, target)) && KeyStored(s.events, row.key)
    case Answered(Accepted) => Acts(cfg, p) && KeyStored(s.events, KeyAsked(p))
    case Answered(AlreadyProcessed) => Recognized(p) && KeyStored(s.events, KeyAsked(p))
    case Answered(Ignored) => !Acts(cfg, p)
    case _ => true
  }

  lemma StoredStays(cfg: Config, s: State, step: Step, key: string)
    requires StagesOk(cfg, s) && Enabled(s, step) && KeyStored(s.events, key)
    ensures KeyStored(Do(cfg, s, step).events, key)
  {
    var e :| e in s.events && s.events[e].key == key;
    EventsGrow(cfg, s, step, e);
  }

  lemma TruthfulOwnStep(cfg: Config, s: State, step: Step)
    requires EventsOk(s) && StagesOk(cfg, s) && Enabled(s, step) && !step.Arrive? && Truthful(cfg, s, step.h)
    ensures Truthful(cfg, Do(cfg, s, step), step.h)
  {
    var p := s.deliveries[step.h].payload;
    ParsedAsAsked(p);
    ActsExactly(cfg, p);
    var t := Do(cfg, s, step);
    if step.EnqueueNext? || step.Finish? {
      StoredStays(cfg, s, step, s.deliveries[step.h].stage.row.key);
    } else if step.Insert? && step.fault == Fine {
      InsertStores(s, s.deliveries[step.h].stage.eid, s.deliveries[step.h].stage.row);
    }
  }

  lemma InsertStores(s: State, eid: EventId, row: EventRow)
    ensures KeyStored(InsertRow(s.events, eid, row), row.key)
  {
    if !KeyStored(s.events, row.key) { assert s.events[eid := row][eid].key == row.key; }
  }

  lemma TruthfulOtherStep(cfg: Config, s: State, step: Step, h: DeliveryId)
    requires StagesOk(cfg, s) && Enabled(s, step) && h in s.deliveries && step.h != h && Truthful(cfg, s, h)
    ensures h in Do(cfg, s, step).deliveries && Truthful(cfg, Do(cfg, s, step), h)
  {
    var p := s.deliveries[h].payload;
    assert Do(cfg, s, step).deliveries[h] == s.deliveries[h];
    if KeyStored(s.events, KeyAsked(p)) { StoredStays(cfg, s, step, KeyAsked(p)); }
    if s.deliveries[h].stage.Enqueuing? { StoredStays(cfg, s, step, s.deliveries[h].stage.row.key); }
  }

  ghost predicate AllTruthful(cfg: Config, s: State) {
    forall h :: h in s.deliveries ==> Truthful(cfg, s, h)
  }

  lemma {:induction false} TruthfulRun(cfg: Config, s: State, run: seq<Step>)
    requires IssueKeys.ProjectKey(cfg.projectKey) && Sound(cfg, s) && AllTruthful(cfg, s) && IsRun(cfg, s, run)
    ensures AllTruthful(cfg, Exec(cfg, s, run))
    decreases |run|
  {
    if run != [] {
      TruthfulStep(cfg, s, run[0]);
      SoundStep(cfg, s, run[0]);
      TruthfulRun(cfg, Do(cfg, s, run[0]), run[1..]);
    }
  }

  lemma TruthfulStep(cfg: Config, s: State, step: Step)
    requires Sound(cfg, s) && AllTruthful(cfg, s) && Enabled(s, step)
    ensures AllTruthful(cfg, Do(cfg, s, step))
  {
    forall h | h in Do(cfg, s, step).deliveries
      ensures Truthful(cfg, Do(cfg, s, step), h)
    {
      if step.h != h {
        TruthfulOtherStep(cfg, s, step, h);
      } else if !step.Arrive? {
        TruthfulOwnStep(cfg, s, step);
      }
    }
  }

  // ----- errors -----

  predicate Faulty(step: Step, h: DeliveryId) {
    (step.Check? || step.Insert?) && step.h == h && step.fault != Fine
  }

  predicate ErrorAnswered(s: State, h: DeliveryId) {
    h in s.deliveries && s.deliveries[h].stage == Answered(InternalError)
  }

  lemma ErrorStep(cfg: Config, s: State, step: Step, h: DeliveryId)
    requires Enabled(s, step) && ErrorAnswered(Do(cfg, s, step), h)
    ensures ErrorAnswered(s, h) || Faulty(step, h)
  {
  }

  lemma {:induction false} ErrorRun(cfg: Config, s: State, run: seq<Step>, h: DeliveryId) returns (i: nat)
    requires IsRun(cfg, s, run) && !ErrorAnswered(s, h) && ErrorAnswered(Exec(cfg, s, run), h)
    ensures i < |run| && Faulty(run[i], h)
    decreases |run|
  {
    var t := Do(cfg, s, run[0]);
    if ErrorAnswered(t, h) {
      ErrorStep(cfg, s, run[0], h);
      i := 0;
    } else {
      i := ErrorRun(cfg, t, run[1..], h);
      i := i + 1;
    }
  }

  /** Every answer is true at the end of the run, whatever happened in between: accepted means that the
      delivery mentions an issue, asks for a state, and an event with its key is stored; already processed
      means that such an event is stored; ignored means that it asks for nothing or mentions no issue; and
      an internal error means that one of its own statements failed. */
  lemma AnswersAreTrue(cfg: Config, s: State, run: seq<Step>, h: DeliveryId)
    requires IssueKeys.ProjectKey(cfg.projectKey) && Init(s) && IsRun(cfg, s, run)
    requires h in Exec(cfg, s, run).deliveries && Exec(cfg, s, run).deliveries[h].stage.Answered?
    ensures var t := Exec(cfg, s, run);
            var p := t.deliveries[h].payload;
            match t.deliveries[h].stage.response
            case Accepted => Acts(cfg, p) && KeyStored(t.events, KeyAsked(p))
            case AlreadyProcessed => Recognized(p) && KeyStored(t.events, KeyAsked(p))
            case Ignored => !Acts(cfg, p)
            case InternalError => exists i :: 0 <= i < |run| && Faulty(run[i], h)
  {
    TruthfulRun(cfg, s, run);
    var t := Exec(cfg, s, run);
    assert Truthful(cfg, t, h);
    if ErrorAnswered(t, h) { var i := ErrorRun(cfg, s, run, h); }
  }
}
