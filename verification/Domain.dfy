/** The value types shared by every component: job rows, workflow states and event kinds. */
module Domain {

  datatype Option<+T> = None | Some(value: T)

  // UUIDs are modelled as naturals; only equality and freshness matter.
  type JobId = nat
  type EventId = nat

  // Instants and durations are integers counting nanoseconds.

  datatype WorkflowState = InProgress | CodeReview | Rfqa | Done

  datatype EventType = Push | MROpened | MRMerged | MRDraft | EmojiAward | Unrecognized

  datatype Status = Pending | Running | Completed | Failed | Dead

  /** One row of the jobs table. */
  datatype Row = Row(
    eventId: EventId,
    issueKey: string,
    target: WorkflowState,
    status: Status,
    attempts: nat,
    maxAttempts: int,
    nextRunAt: int,
    runningSince: Option<int>,
    completedAt: Option<int>)

  /** One row of the events table (the columns that later decisions read). */
  datatype EventRow = EventRow(
    key: string,
    kind: EventType,
    issueKeys: seq<string>,
    sourceBranch: string,
    targetBranch: string)

  /** What one execution of a job amounted to, as far as `process` can tell. */
  datatype Outcome = Moved(transitionId: string) | Skipped | Retryable | Permanent

  ghost predicate Distinct<T>(s: seq<T>) {
    forall i, j :: 0 <= i < j < |s| ==> s[i] != s[j]
  }

  function Elements<A(!new)>(s: seq<A>): (e: set<A>)
    ensures forall x :: x in e <==> x in s
  {
    set x | x in s
  }

  lemma {:induction false} DistinctSize<A(!new)>(s: seq<A>)
    requires Distinct(s)
    ensures |Elements(s)| == |s|
  {
    if s != [] {
      DistinctSize(s[1..]);
      assert s[0] !in Elements(s[1..]);
      assert Elements(s) == Elements(s[1..]) + {s[0]};
    }
  }

  lemma {:induction false} SubsetSize<A>(a: set<A>, b: set<A>)
    requires a <= b
    ensures |a| <= |b|
  {
    if a != {} {
      var x :| x in a;
      SubsetSize(a - {x}, b - {x});
    }
  }

  function Max(a: int, b: int): (m: int) {
    if a >= b then a else b
  }
}
