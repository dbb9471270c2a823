/** Executing one job against Jira, with Jira as an oracle that answers each call. */
module Executor {
  import opened Domain
  import DueDate

  datatype Config = Config(
    transitions: map<WorkflowState, string>,
    inProgressId: string,
    strategy: string,
    sprintEnd: string,
    pointsField: string,
    startField: string,
    dueField: string,
    offset: int)

  datatype FieldValue = Points(points: real) | Day(day: int)

  datatype Call =
    | GetStoryPoints(issueKey: string, field: string)
    | Transition(issueKey: string, id: string, fields: map<string, FieldValue>)

  datatype Answer = Success | HttpError(status: int) | OtherError

  /** What the oracle replies during one execution: story points if asked, and the transition. */
  datatype Answers = Answers(points: Option<real>, transition: Answer)

  /** The statuses `IsNonRetryable` lists. */
  predicate NonRetryable(status: int) {
    status in {400, 404, 405, 409, 422}
  }

  /** The id a job of this target state must be moved with; empty means not configured. */
  function TransitionId(cfg: Config, target: WorkflowState): string {
    if target == InProgress then cfg.inProgressId
    else if target in cfg.transitions then cfg.transitions[target]
    else ""
  }

  function AnswerOutcome(a: Answer, id: string): Outcome {
    match a
    case Success => Moved(id)
    case HttpError(status) => if NonRetryable(status) then Permanent else Retryable
    case OtherError => Retryable
  }

  /** A date can be computed for this configuration (independent of clock and Jira). */
  predicate DatesConfigured(cfg: Config) {
    || cfg.strategy == "story_points"
    || (cfg.strategy == "sprint_end" && DueDate.ParseWeekday(cfg.sprintEnd).Some?)
  }

  /** The outcome as a function of configuration and answers alone. */
  function OutcomeOf(cfg: Config, target: WorkflowState, ans: Answers): Outcome {
    var id := TransitionId(cfg, target);
    if id == "" then Skipped
    else if target == InProgress && !DatesConfigured(cfg) then Retryable
    else AnswerOutcome(ans.transition, id)
  }

  function TransitionCalls(calls: seq<Call>): seq<Call> {
    if calls == [] then []
    else (if calls[0].Transition? then [calls[0]] else []) + TransitionCalls(calls[1..])
  }

  lemma {:induction false} TransitionCallsAppend(a: seq<Call>, b: seq<Call>)
    ensures TransitionCalls(a + b) == TransitionCalls(a) + TransitionCalls(b)
  {
    if a == [] {
      assert a + b == b;
    } else {
      var head := if a[0].Transition? then [a[0]] else [];
      TransitionCallsAppend(a[1..], b);
      assert (a + b)[0] == a[0] && (a + b)[1..] == a[1..] + b;
      assert TransitionCalls(a + b) == head + TransitionCalls(a[1..] + b);
      assert TransitionCalls(a) == head + TransitionCalls(a[1..]);
    }
  }

  // ----- what the configuration and the answers alone determine -----

  /** Jobs of this target state are moved with this id. */
  predicate MovesWith(cfg: Config, target: WorkflowState, id: string) {
    && id != ""
    && if target == InProgress then id == cfg.inProgressId
       else target in cfg.transitions && cfg.transitions[target] == id
  }

  predicate NotConfigured(cfg: Config, target: WorkflowState) {
    if target == InProgress then cfg.inProgressId == ""
    else target !in cfg.transitions || cfg.transitions[target] == ""
  }

  /** An In Progress transition needs a due date: a known strategy and, for sprint_end, a weekday's name. */
  ghost predicate Datable(cfg: Config, target: WorkflowState) {
    target == InProgress ==>
      || cfg.strategy == "story_points"
      || (cfg.strategy == "sprint_end" && exists w: DueDate.Weekday :: DueDate.Names(cfg.sprintEnd, DueDate.NAMES[w]))
  }

  /** The statuses after which trying again is pointless. */
  predicate Hopeless(a: Answer) {
    a.HttpError? && (a.status == 400 || a.status == 404 || a.status == 405 || a.status == 409 || a.status == 422)
  }

  lemma DatableExactly(cfg: Config)
    ensures Datable(cfg, InProgress) <==> DatesConfigured(cfg)
    ensures forall points: real, now: int ::
              DueDate.CalculateDueDate(cfg.strategy, cfg.sprintEnd, points, now, cfg.offset).Some? <==>
              DatesConfigured(cfg)
  {
    forall w: DueDate.Weekday
      ensures DueDate.ParseWeekday(cfg.sprintEnd) == Some(w) <==> DueDate.Names(cfg.sprintEnd, DueDate.NAMES[w])
    {
      DueDate.ParseWeekdayExactly(cfg.sprintEnd, w);
    }
    if cfg.strategy == "sprint_end" && DatesConfigured(cfg) {
      var w := DueDate.ParseWeekday(cfg.sprintEnd).value;
      assert DueDate.Names(cfg.sprintEnd, DueDate.NAMES[w]);
    }
  }

  /** The outcome, without reference to the code: skipped when nothing is configured; moved, with the
      configured id, when Jira confirmed; permanent on five statuses; worth a retry otherwise. */
  lemma OutcomeExactly(cfg: Config, target: WorkflowState, ans: Answers)
    ensures var result := OutcomeOf(cfg, target, ans);
            && (result.Skipped? <==> NotConfigured(cfg, target))
            && (result.Moved? <==>
                  !NotConfigured(cfg, target) && Datable(cfg, target) && ans.transition.Success?)
            && (result.Moved? ==> MovesWith(cfg, target, result.transitionId))
            && (result.Permanent? <==>
                  !NotConfigured(cfg, target) && Datable(cfg, target) && Hopeless(ans.transition))
  {
    if target == InProgress { DatableExactly(cfg); }
  }

  /** The request an In Progress transition sends: the configured id, today's local date, the computed due
      date and the story points, each under its field; a later field wins where names coincide. */
  predicate InProgressCall(cfg: Config, issueKey: string, now: int, ans: Answers, call: Call) {
    var asked := cfg.strategy == "story_points" && ans.points.Some?;
    var points := if asked then ans.points.value else 1.0;
    var due := DueDate.CalculateDueDate(cfg.strategy, cfg.sprintEnd, points, now, cfg.offset);
    && due.Some? && call.Transition? && call.issueKey == issueKey && call.id == cfg.inProgressId
    && call.fields.Keys == {cfg.pointsField, cfg.startField, cfg.dueField}
    && call.fields[cfg.dueField] == Day((due.value + cfg.offset) / 86_400_000_000_000)
    && (cfg.startField != cfg.dueField ==>
          call.fields[cfg.startField] == Day((now + cfg.offset) / 86_400_000_000_000))
    && (cfg.pointsField != cfg.startField && cfg.pointsField != cfg.dueField ==>
          call.fields[cfg.pointsField] == Points(points))
  }

  /** The executor, with the calls it has sent to Jira so far. */
  class JiraExecutor {
    const cfg: Config
    var calls: seq<Call>

    constructor (cfg: Config)
      ensures this.cfg == cfg && calls == []
    {
      this.cfg := cfg;
      calls := [];
    }

    /** Exactly one transition call is sent when one is configured for the target state (and, for In
        Progress, a date can be computed), with the configured id, the job's key and the right fields;
        otherwise none is sent. The result says what Jira answered, or that nothing is configured. */
    method Execute(issueKey: string, target: WorkflowState, now: int, ans: Answers) returns (result: Outcome)
      modifies `calls
      ensures result == OutcomeOf(cfg, target, ans)
      ensures result.Skipped? <==> NotConfigured(cfg, target)
      ensures NotConfigured(cfg, target) ==> calls == old(calls)
      ensures target != InProgress && target in cfg.transitions && cfg.transitions[target] != "" ==>
                calls == old(calls) + [Transition(issueKey, cfg.transitions[target], map[])]
      ensures target == InProgress && cfg.inProgressId != "" ==> InProgressSent(old(calls), calls, issueKey, now, ans)
      ensures result.Moved? <==> !NotConfigured(cfg, target) && Datable(cfg, target) && ans.transition.Success?
      ensures result.Permanent? <==> !NotConfigured(cfg, target) && Datable(cfg, target) && Hopeless(ans.transition)
      ensures result.Moved? ==> MovesWith(cfg, target, result.transitionId)
      ensures old(calls) <= calls
      ensures |TransitionCalls(calls[|old(calls)|..])| ==
              if NotConfigured(cfg, target) || !Datable(cfg, target) then 0 else 1
    {
      OutcomeExactly(cfg, target, ans);
      if target == InProgress {
        result := ExecuteInProgress(issueKey, now, ans);
        return;
      }
      var id := if target in cfg.transitions then cfg.transitions[target] else "";
      if id == "" {
        assert calls[|old(calls)|..] == [];
        return Skipped;
      }
      var call := Transition(issueKey, id, map[]);
      calls := calls + [call];
      assert calls[|old(calls)|..] == [call];
      result := AnswerOutcome(ans.transition, id);
    }

    /** Story points are asked for under that strategy alone; then, if there is a due date, the one
        transition is sent. */
    ghost predicate InProgressSent(before: seq<Call>, after: seq<Call>, issueKey: string, now: int, ans: Answers) {
      var asked := if cfg.strategy == "story_points" then [GetStoryPoints(issueKey, cfg.pointsField)] else [];
      if Datable(cfg, InProgress) then
        exists call :: after == before + asked + [call] && InProgressCall(cfg, issueKey, now, ans, call)
      else after == before + asked
    }

    method ExecuteInProgress(issueKey: string, now: int, ans: Answers) returns (result: Outcome)
      modifies `calls
      ensures result == OutcomeOf(cfg, InProgress, ans)
      ensures cfg.inProgressId == "" ==> calls == old(calls)
      ensures cfg.inProgressId != "" ==> InProgressSent(old(calls), calls, issueKey, now, ans)
      ensures old(calls) <= calls
      ensures |TransitionCalls(calls[|old(calls)|..])| ==
              if cfg.inProgressId == "" || !Datable(cfg, InProgress) then 0 else 1
    {
      DatableExactly(cfg);
      ghost var sent: seq<Call> := [];
      if cfg.inProgressId == "" {
        assert calls[|old(calls)|..] == [];
        return Skipped;
      }
      var storyPoints := 1.0;
      if cfg.strategy == "story_points" {
        calls := calls + [GetStoryPoints(issueKey, cfg.pointsField)];
        sent := [GetStoryPoints(issueKey, cfg.pointsField)];
        if ans.points.Some? {
          storyPoints := ans.points.value;
        }
      }
      assert calls == old(calls) + sent && TransitionCalls(sent) == [];
      var due := DueDate.CalculateDueDate(cfg.strategy, cfg.sprintEnd, storyPoints, now, cfg.offset);
      if due.None? {
        assert calls[|old(calls)|..] == sent;
        return Retryable;
      }
      var fields := map[
        cfg.pointsField := Points(storyPoints),
        cfg.startField := Day(DueDate.LocalDay(now, cfg.offset)),
        cfg.dueField := Day(DueDate.LocalDay(due.value, cfg.offset))];
      var call := Transition(issueKey, cfg.inProgressId, fields);
      assert InProgressCall(cfg, issueKey, now, ans, call);
      calls := calls + [call];
      assert calls[|old(calls)|..] == sent + [call];
      TransitionCallsAppend(sent, [call]);
      result := AnswerOutcome(ans.transition, cfg.inProgressId);
    }
  }
}
