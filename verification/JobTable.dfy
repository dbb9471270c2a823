/** The jobs table: what each SQL statement of the job repository does to its rows. */
module JobTable {
  import opened Domain
  import Backoff

  type Rows = map<JobId, Row>

  predicate Claimable(r: Row) {
    r.status == Pending || r.status == Failed
  }

  predicate Due(r: Row, now: int) {
    Claimable(r) && r.nextRunAt <= now
  }

  predicate Terminal(r: Row) {
    r.status == Completed || r.status == Dead
  }

  predicate Stuck(r: Row, cutoff: int) {
    r.status == Running && r.runningSince.Some? && r.runningSince.value < cutoff
  }

  function NewJob(eventId: EventId, issueKey: string, target: WorkflowState, maxAttempts: int, at: int): Row {
    Row(eventId, issueKey, target, Pending, 0, maxAttempts, at, None, None)
  }

  function AsRunning(r: Row, at: int): Row {
    r.(status := Running, runningSince := Some(at))
  }

  function AsCompleted(r: Row, at: int): Row {
    r.(status := Completed, completedAt := Some(at), runningSince := None)
  }

  function AsFailed(r: Row, nextRunAt: int): Row {
    r.(status := Failed, nextRunAt := nextRunAt, attempts := r.attempts + 1, runningSince := None)
  }

  function AsDead(r: Row): Row {
    r.(status := Dead, attempts := r.attempts + 1, runningSince := None)
  }

  function AsReset(r: Row, at: int): Row {
    r.(status := Pending, nextRunAt := at, runningSince := None)
  }

  /** UPDATE ... SET status = 'running', running_since = now() WHERE id = ANY(ids) */
  function ClaimRows(rows: Rows, ids: seq<JobId>, at: int): (r: Rows)
    ensures r.Keys == rows.Keys
  {
    map id | id in rows :: if id in ids then AsRunning(rows[id], at) else rows[id]
  }

  function ResetRows(rows: Rows, cutoff: int, at: int): (r: Rows)
    ensures r.Keys == rows.Keys
  {
    map id | id in rows :: if Stuck(rows[id], cutoff) then AsReset(rows[id], at) else rows[id]
  }

  /** The three unguarded updates a worker may issue for the job it was given. */
  datatype Mark = Complete | Fail(nextRunAt: int) | Die

  function MarkedRow(r: Row, m: Mark, now: int): Row {
    match m
    case Complete => AsCompleted(r, now)
    case Fail(next) => AsFailed(r, next)
    case Die => AsDead(r)
  }

  /** WHERE id = $1 only: a missing row is left alone, and the status is not looked at. */
  function ApplyMark(rows: Rows, id: JobId, m: Mark, now: int): (r: Rows)
    ensures r.Keys == rows.Keys
  {
    if id in rows then rows[id := MarkedRow(rows[id], m, now)] else rows
  }

  /** What `process` decides from the snapshot it holds; `at` is when it reads the clock. */
  function Decide(snap: Row, outcome: Outcome, at: int): Mark {
    match outcome
    case Moved(_) => Complete
    case Skipped => Complete
    case Permanent => Die
    case Retryable =>
      if snap.attempts + 1 >= snap.maxAttempts then Die
      else Fail(at + Backoff.NextBackoff(snap.attempts))
  }

  /** A result of SELECT ... WHERE claimable and due ORDER BY next_run_at LIMIT n FOR UPDATE SKIP
      LOCKED: ties may come in any order. */
  ghost predicate IsSelection(rows: Rows, locked: set<JobId>, at: int, limit: nat, ids: seq<JobId>) {
    && |ids| <= limit
    && Distinct(ids)
    && (forall id :: id in ids ==> Selectable(rows, locked, at, id))
    && (forall i, j :: 0 <= i < j < |ids| && ids[i] in rows && ids[j] in rows ==>
          rows[ids[i]].nextRunAt <= rows[ids[j]].nextRunAt)
    && (forall id, other ::
          id in ids && Selectable(rows, locked, at, other) && other !in ids ==>
          |ids| == limit && rows[id].nextRunAt <= rows[other].nextRunAt)
    && (ids == [] && limit > 0 ==> forall id :: !Selectable(rows, locked, at, id))
  }

  predicate Selectable(rows: Rows, locked: set<JobId>, at: int, id: JobId) {
    id in rows && Due(rows[id], at) && id !in locked
  }

  /** The rows a dequeue at this instant may take: pending or failed, due, and not locked by another. */
  function DueRows(rows: Rows, locked: set<JobId>, at: int): set<JobId> {
    set id | id in rows && (rows[id].status == Pending || rows[id].status == Failed)
             && rows[id].nextRunAt <= at && id !in locked
  }

  /** A selection takes as many of them as the limit allows, and never skips one for a later one. */
  lemma SelectionIsFull(rows: Rows, locked: set<JobId>, at: int, limit: nat, ids: seq<JobId>)
    requires IsSelection(rows, locked, at, limit, ids)
    ensures var due := DueRows(rows, locked, at);
            && Elements(ids) <= due && |ids| == (if |due| <= limit then |due| else limit)
            && forall id, other :: id in ids && other in due - Elements(ids) ==>
                 rows[id].nextRunAt <= rows[other].nextRunAt
  {
    var due := DueRows(rows, locked, at);
    DistinctSize(ids);
    SubsetSize(Elements(ids), due);
    if |ids| < limit {
      forall id | id in due
        ensures id in Elements(ids)
      {
        assert Selectable(rows, locked, at, id);
        if ids != [] { assert ids[0] in ids; }
      }
      assert Elements(ids) == due;
    }
  }
}
