/** From a decoded webhook payload to the event that is stored, and the state it asks for. */
module Events {
  import opened Domain
  import IssueKeys
  import opened IdempotencyKey

  datatype MergeRequestInfo = MergeRequestInfo(iid: int, title: string, source: string, target: string, state: string)

  datatype Payload =
    | PushPayload(projectId: int, ref: string, before: string, messages: seq<string>)
    | MergeRequestPayload(projectId: int, iid: int, title: string, source: string, target: string,
        action: string, draft: bool, workInProgress: bool)
    | EmojiPayload(projectId: int, eventType: string, awardableType: string, name: string, id: int,
        mergeRequest: Option<MergeRequestInfo>)
    | OtherPayload

  /** The fields of a normalized event that later steps read. */
  datatype Event = Event(
    key: string,
    kind: EventType,
    sourceBranch: string,
    targetBranch: string,
    title: string,
    messages: seq<string>,
    emojiName: string)

  const UNRECOGNIZED: Event := Event("", Unrecognized, "", "", "", [], "")

  datatype Config = Config(projectKey: string, develop: string, master: string, doneEmoji: string, maxAttempts: int)

  // ----- parser -----

  function TrimPrefix(s: string, prefix: string): string {
    if prefix <= s then s[|prefix|..] else s
  }

  function ClassifyMR(action: string, draft: bool): EventType {
    if action == "open" || action == "reopen" || action == "update" then
      if draft then MRDraft else MROpened
    else if action == "merge" then MRMerged
    else Unrecognized
  }

  /** What the key of a payload is printed from. */
  function SourceOf(p: Payload): Source
    requires !p.OtherPayload?
  {
    match p
    case PushPayload(project, ref, before, _) => PushOf(project, TrimPrefix(ref, "refs/heads/"), before)
    case MergeRequestPayload(project, iid, _, _, _, action, _, _) => MergeRequestOf(project, iid, action)
    case EmojiPayload(project, _, _, name, id, _) => EmojiOf(project, name, id)
  }

  function ParsePayload(p: Payload): Event {
    match p
    case PushPayload(project, ref, before, messages) =>
      Event(Print(SourceOf(p)), Push, TrimPrefix(ref, "refs/heads/"), "", "", messages, "")
    case MergeRequestPayload(project, iid, title, source, target, action, draft, wip) =>
      Event(Print(SourceOf(p)), ClassifyMR(action, draft || wip), source, target, title, [], "")
    case EmojiPayload(project, eventType, awardable, name, id, mr) =>
      if eventType != "award" || awardable != "MergeRequest" then UNRECOGNIZED
      else
        var info := if mr.Some? then mr.value else MergeRequestInfo(0, "", "", "", "");
        Event(Print(SourceOf(p)), EmojiAward, info.source, info.target, info.title, [], name)
    case OtherPayload => UNRECOGNIZED
  }

  datatype Commit = Commit(message: string)

  /** `commitMessages`: fill a slice of the same length. */
  method CommitMessages(commits: seq<Commit>) returns (messages: array<string>)
    ensures fresh(messages) && messages.Length == |commits|
    ensures forall i :: 0 <= i < |commits| ==> messages[i] == commits[i].message
  {
    messages := new string[|commits|](_ => "");
    for i := 0 to |commits|
      invariant forall k :: 0 <= k < i ==> messages[k] == commits[k].message
    {
      messages[i] := commits[i].message;
    }
  }

  predicate CleanBefore(p: Payload) {
    p.PushPayload? ==> NoColon(p.before)
  }

  /** Two recognized deliveries share an idempotency key exactly when they are the same kind and agree
      on (project, branch, before), (project, iid, action) or (project, emoji name, award id). */
  lemma SameKeyExactly(p: Payload, q: Payload)
    requires !ParsePayload(p).kind.Unrecognized? && !ParsePayload(q).kind.Unrecognized?
    requires CleanBefore(p) && CleanBefore(q)
    ensures ParsePayload(p).key == ParsePayload(q).key <==> SourceOf(p) == SourceOf(q)
  {
    KeysInjective(SourceOf(p), SourceOf(q));
  }

  // ----- rules -----

  function Classify(kind: EventType, source: string, target: string, cfg: Config): Option<WorkflowState> {
    match kind
    case Push => Some(if source == cfg.develop then Rfqa else if source == cfg.master then Done else InProgress)
    case MROpened => Some(CodeReview)
    case MRMerged => if target == cfg.develop then Some(Rfqa) else None
    case MRDraft => None
    case Unrecognized => None
    case EmojiAward => None
  }

  function IsNewBranch(before: string): bool {
    before == "0000000000000000000000000000000000000000" || before == ""
  }

  /** The push filter: only new branches and pushes to develop or master go on. */
  predicate PassesPushFilter(cfg: Config, p: Payload, e: Event) {
    p.PushPayload? ==> IsNewBranch(p.before) || e.sourceBranch == cfg.develop || e.sourceBranch == cfg.master
  }

  /** What the handler will store and enqueue once the key turned out to be new; None when it answers
      "ignored" instead. */
  function Plan(cfg: Config, p: Payload): Option<(EventRow, WorkflowState)> {
    var e := ParsePayload(p);
    var keys := IssueKeys.FromEvent(cfg.projectKey, e.sourceBranch, e.title, e.messages);
    var row := EventRow(e.key, e.kind, keys, e.sourceBranch, e.targetBranch);
    if !PassesPushFilter(cfg, p, e) then None
    else if e.kind == EmojiAward then
      if e.emojiName != cfg.doneEmoji || keys == [] then None else Some((row, Done))
    else
      match Classify(e.kind, e.sourceBranch, e.targetBranch, cfg)
      case None => None
      case Some(target) => if keys == [] then None else Some((row, target))
  }

  /** The target state as computed from a stored event row alone. */
  function TargetOfRow(cfg: Config, row: EventRow): Option<WorkflowState> {
    if row.kind == EmojiAward then Some(Done)
    else Classify(row.kind, row.sourceBranch, row.targetBranch, cfg)
  }

  /** Everything planned can be recomputed from the row stored, its keys are distinct and at least one,
      and an In Progress transition comes only from a newly created branch. */
  lemma PlanProperties(cfg: Config, p: Payload)
    requires IssueKeys.ProjectKey(cfg.projectKey)
    requires Plan(cfg, p).Some?
    ensures var (row, target) := Plan(cfg, p).value;
            && TargetOfRow(cfg, row) == Some(target)
            && row.key == ParsePayload(p).key
            && Distinct(row.issueKeys) && row.issueKeys != []
            && !row.kind.Unrecognized? && !row.kind.MRDraft?
            && (target == InProgress ==> p.PushPayload? && IsNewBranch(p.before))
            && (target == Done ==> (p.PushPayload? && row.sourceBranch == cfg.master)
                                   || (p.EmojiPayload? && p.name == cfg.doneEmoji))
  {
    var e := ParsePayload(p);
    IssueKeys.FromEventProperties(cfg.projectKey, e.sourceBranch, e.title, e.messages);
  }

  // ----- the documentation's event table, read off the payload alone -----

  /** What follows "refs/heads/"; a ref without it is its own branch. */
  ghost function BranchOf(ref: string): string {
    if |ref| >= 11 && ref[..11] == "refs/heads/" then ref[11..] else ref
  }

  lemma BranchOfHead(branch: string)
    ensures BranchOf("refs/heads/" + branch) == branch == TrimPrefix("refs/heads/" + branch, "refs/heads/")
  {
    var ref := "refs/heads/" + branch;
    assert ref[..11] == "refs/heads/" && ref[11..] == branch;
  }

  lemma TrimIsBranch(ref: string)
    ensures TrimPrefix(ref, "refs/heads/") == BranchOf(ref)
  {
    if "refs/heads/" <= ref { assert ref[..11] == "refs/heads/"; }
    if |ref| >= 11 && ref[..11] == "refs/heads/" { assert ref == "refs/heads/" + ref[11..]; }
  }

  /** Nothing was there before: no id, or forty zeros. */
  predicate NothingBefore(before: string) {
    before == "" || (|before| == 40 && forall i :: 0 <= i < 40 ==> before[i] == '0')
  }

  lemma NewBranchExactly(before: string)
    ensures IsNewBranch(before) <==> NothingBefore(before)
  {
    var zeros := "0000000000000000000000000000000000000000";
    assert |zeros| == 40 && forall i :: 0 <= i < 40 ==> zeros[i] == '0';
    if NothingBefore(before) && before != "" { assert before == zeros; }
  }

  /** Deliveries the parser knows what to do with. */
  ghost predicate Recognized(p: Payload) {
    match p
    case PushPayload(_, _, _, _) => true
    case MergeRequestPayload(_, _, _, _, _, action, _, _) => action in {"open", "reopen", "update", "merge"}
    case EmojiPayload(_, eventType, awardable, _, _, _) => eventType == "award" && awardable == "MergeRequest"
    case OtherPayload => false
  }

  /** Which deliveries ask for which state. */
  ghost predicate Asks(cfg: Config, p: Payload, target: WorkflowState) {
    match p
    case PushPayload(_, ref, before, _) =>
      var branch := BranchOf(ref);
      (match target
       case InProgress => branch != cfg.develop && branch != cfg.master && NothingBefore(before)
       case Rfqa => branch == cfg.develop
       case Done => branch == cfg.master && branch != cfg.develop
       case CodeReview => false)
    case MergeRequestPayload(_, _, _, _, to, action, draft, wip) =>
      (match target
       case CodeReview => action in {"open", "reopen", "update"} && !draft && !wip
       case Rfqa => action == "merge" && to == cfg.develop
       case Done => false
       case InProgress => false)
    case EmojiPayload(_, eventType, awardable, name, _, _) =>
      target == Done && eventType == "award" && awardable == "MergeRequest" && name == cfg.doneEmoji
    case OtherPayload => false
  }

  /** The first of two lists that has anything in it. */
  ghost function FirstOf(a: seq<string>, b: seq<string>): seq<string> {
    if a != [] then a else b
  }

  /** The issue keys a delivery is about: a push's branch, else its commit messages; a merge request's
      source branch, else its title; an award's request's source branch, else its title. */
  ghost function KeysAsked(pk: string, p: Payload): seq<string> {
    match p
    case PushPayload(_, ref, _, messages) =>
      FirstOf(IssueKeys.Keys(pk, BranchOf(ref)), IssueKeys.Keys(pk, IssueKeys.Join(messages)))
    case MergeRequestPayload(_, _, title, source, _, _, _, _) =>
      FirstOf(IssueKeys.Keys(pk, source), IssueKeys.Keys(pk, title))
    case EmojiPayload(_, _, _, _, _, mr) =>
      if mr.None? then [] else FirstOf(IssueKeys.Keys(pk, mr.value.source), IssueKeys.Keys(pk, mr.value.title))
    case OtherPayload => []
  }

  /** A push's message keys are those of each message in turn, without repetitions. */
  lemma KeysOfMessages(pk: string, p: Payload)
    requires IssueKeys.ProjectKey(pk) && p.PushPayload? && IssueKeys.Keys(pk, BranchOf(p.ref)) == []
    ensures KeysAsked(pk, p) == IssueKeys.Dedup(IssueKeys.KeysOfEach(pk, p.messages))
  {
    IssueKeys.KeysOfJoin(pk, p.messages);
  }

  /** The idempotency key as text. */
  ghost function KeyAsked(p: Payload): string {
    match p
    case PushPayload(project, ref, before, _) =>
      "push:" + PrintInt(project) + ":" + BranchOf(ref) + ":" + before
    case MergeRequestPayload(project, iid, _, _, _, action, _, _) =>
      "mr:" + PrintInt(project) + ":" + PrintInt(iid) + ":" + action
    case EmojiPayload(project, _, _, name, id, _) =>
      "emoji:" + PrintInt(project) + ":" + name + ":" + PrintInt(id)
    case OtherPayload => ""
  }

  /** The row a delivery stores. */
  ghost function RowAsked(pk: string, p: Payload): EventRow {
    var keys := KeysAsked(pk, p);
    match p
    case PushPayload(_, ref, _, _) => EventRow(KeyAsked(p), Push, keys, BranchOf(ref), "")
    case MergeRequestPayload(_, _, _, source, to, action, draft, wip) =>
      var kind := if action == "merge" then MRMerged else if draft || wip then MRDraft else MROpened;
      EventRow(KeyAsked(p), kind, keys, source, to)
    case EmojiPayload(_, _, _, _, _, mr) =>
      EventRow(KeyAsked(p), EmojiAward, keys, if mr.Some? then mr.value.source else "",
               if mr.Some? then mr.value.target else "")
    case OtherPayload => EventRow("", Unrecognized, keys, "", "")
  }

  /** The parser recognizes exactly these deliveries and gives them these keys. */
  lemma ParsedAsAsked(p: Payload)
    ensures !ParsePayload(p).kind.Unrecognized? <==> Recognized(p)
    ensures Recognized(p) ==> ParsePayload(p).key == KeyAsked(p)
  {
    match p
    case PushPayload(project, ref, before, _) =>
      TrimIsBranch(ref);
      var a, b, c := PrintInt(project), BranchOf(ref), before;
      assert "push:" + (a + ":" + (b + ":" + c)) == "push:" + a + ":" + b + ":" + c;
    case MergeRequestPayload(project, iid, _, _, _, action, _, _) =>
      var a, b, c := PrintInt(project), PrintInt(iid), action;
      assert "mr:" + (a + ":" + (b + ":" + c)) == "mr:" + a + ":" + b + ":" + c;
    case EmojiPayload(project, _, _, name, id, _) =>
      var a, b, c := PrintInt(project), name, PrintInt(id);
      assert "emoji:" + (a + ":" + (b + ":" + c)) == "emoji:" + a + ":" + b + ":" + c;
    case OtherPayload =>
  }

  lemma NoKeysInNothing(pk: string)
    ensures IssueKeys.Keys(pk, "") == []
  {
    IssueKeys.NothingAtEnd(pk, "");
  }

  lemma FromEventAsAsked(pk: string, p: Payload)
    requires Recognized(p)
    ensures var e := ParsePayload(p);
            IssueKeys.FromEvent(pk, e.sourceBranch, e.title, e.messages) == KeysAsked(pk, p)
  {
    NoKeysInNothing(pk);
    if p.PushPayload? { TrimIsBranch(p.ref); }
  }

  ghost predicate PlannedAsAsked(cfg: Config, p: Payload, row: EventRow, target: WorkflowState) {
    Plan(cfg, p) == Some((row, target)) <==>
    KeysAsked(cfg.projectKey, p) != [] && Asks(cfg, p, target) && row == RowAsked(cfg.projectKey, p)
  }

  lemma PushPlan(cfg: Config, p: Payload, row: EventRow, target: WorkflowState)
    requires p.PushPayload?
    ensures PlannedAsAsked(cfg, p, row, target)
  {
    TrimIsBranch(p.ref);
    NewBranchExactly(p.before);
    ParsedAsAsked(p);
    FromEventAsAsked(cfg.projectKey, p);
  }

  lemma MergeRequestPlan(cfg: Config, p: Payload, row: EventRow, target: WorkflowState)
    requires p.MergeRequestPayload?
    ensures PlannedAsAsked(cfg, p, row, target)
  {
    ParsedAsAsked(p);
    assert ParsePayload(p).kind == ClassifyMR(p.action, p.draft || p.workInProgress);
    if Recognized(p) { FromEventAsAsked(cfg.projectKey, p); }
  }

  lemma AwardPlan(cfg: Config, p: Payload, row: EventRow, target: WorkflowState)
    requires p.EmojiPayload?
    ensures PlannedAsAsked(cfg, p, row, target)
  {
    ParsedAsAsked(p);
    if Recognized(p) { FromEventAsAsked(cfg.projectKey, p); }
  }

  /** A new delivery is acted on exactly when it mentions an issue key and asks for a state; the row
      stored, keys included, and the state are those read off the payload. A merge to master asks for no
      state, and an award does not look at the request's. */
  lemma PlanExactly(cfg: Config, p: Payload, row: EventRow, target: WorkflowState)
    ensures Plan(cfg, p) == Some((row, target)) <==>
            KeysAsked(cfg.projectKey, p) != [] && Asks(cfg, p, target) && row == RowAsked(cfg.projectKey, p)
  {
    match p
    case PushPayload(_, _, _, _) => PushPlan(cfg, p, row, target);
    case MergeRequestPayload(_, _, _, _, _, _, _, _) => MergeRequestPlan(cfg, p, row, target);
    case EmojiPayload(_, _, _, _, _, _) => AwardPlan(cfg, p, row, target);
    case OtherPayload =>
  }

  /** No delivery asks for two states. */
  lemma OneState(cfg: Config, p: Payload, a: WorkflowState, b: WorkflowState)
    requires Asks(cfg, p, a) && Asks(cfg, p, b)
    ensures a == b
  {
  }
}
