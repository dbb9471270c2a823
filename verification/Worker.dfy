/** The job repository, `process` and the reconciler as code that updates rows in place, each proved
    to do to the table exactly what the corresponding step of the queue model does. */
module Worker {
  import opened Domain
  import opened JobTable
  import Backoff
  import Executor
  import opened Outcomes

  /** The repository over the committed jobs table. */
  class JobRepo {
    var rows: Rows

    constructor ()
      ensures rows == map[]
    {
      rows := map[];
    }

    /** INSERT: the primary key rejects an id already present, the foreign key a row whose event is
        not stored. */
    method Enqueue(id: JobId, row: Row, events: set<EventId>) returns (ok: bool)
      modifies this
      ensures ok <==> id !in old(rows) && row.eventId in events
      ensures rows == if ok then old(rows)[id := row] else old(rows)
    {
      ok := id !in rows && row.eventId in events;
      if ok { rows := rows[id := row]; }
    }

    /** The row of a non-empty candidate set that is due first. */
    method Earliest(candidates: set<JobId>) returns (first: JobId)
      requires candidates != {} && candidates <= rows.Keys
      ensures first in candidates
      ensures forall id :: id in candidates ==> rows[first].nextRunAt <= rows[id].nextRunAt
    {
      first :| first in candidates;
      var rest := candidates - {first};
      while rest != {}
        invariant rest <= candidates && first in candidates
        invariant forall id :: id in candidates - rest ==> rows[first].nextRunAt <= rows[id].nextRunAt
        decreases |rest|
      {
        var next :| next in rest;
        if rows[next].nextRunAt < rows[first].nextRunAt { first := next; }
        rest := rest - {next};
      }
    }

    /** SELECT ... ORDER BY next_run_at LIMIT n FOR UPDATE SKIP LOCKED; in particular a legal
        selection always exists, so a claim transaction can always proceed. */
    method SelectForUpdate(at: int, locked: set<JobId>, limit: nat) returns (ids: seq<JobId>)
      ensures IsSelection(rows, locked, at, limit, ids) && Distinct(ids)
      ensures var due := DueRows(rows, locked, at);
              && Elements(ids) <= due && |ids| == (if |due| <= limit then |due| else limit)
              && (forall i, j :: 0 <= i < j < |ids| && ids[i] in rows && ids[j] in rows ==>
                    rows[ids[i]].nextRunAt <= rows[ids[j]].nextRunAt)
              && (forall id, other :: id in ids && other in due - Elements(ids) ==>
                    rows[id].nextRunAt <= rows[other].nextRunAt)
    {
      var rest := set id | id in rows && Selectable(rows, locked, at, id);
      ids := [];
      while |ids| < limit && rest != {}
        invariant |ids| <= limit && Selected(rows, locked, at, ids, rest)
        decreases |rest|
      {
        var first := Earliest(rest);
        SelectNext(rows, locked, at, ids, rest, first);
        ids := ids + [first];
        rest := rest - {first};
      }
      SelectedIsSelection(rows, locked, at, limit, ids, rest);
      SelectionIsFull(rows, locked, at, limit, ids);
    }

    /** The whole claim transaction when nothing interleaves: select, collect the ids, mark them
        running, return the rows as they were selected. */
    method Dequeue(at: int, locked: set<JobId>, batchSize: nat) returns (jobs: seq<(JobId, Row)>)
      modifies this
      ensures var ids := Ids(jobs);
              && IsSelection(old(rows), locked, at, batchSize, ids)
              && rows == ClaimRows(old(rows), ids, at)
              && rows.Keys == old(rows).Keys
              && forall id :: id in rows ==>
                   rows[id] == if id in ids then old(rows)[id].(status := Running, runningSince := Some(at))
                               else old(rows)[id]
      ensures forall i :: 0 <= i < |jobs| ==> jobs[i].0 in old(rows) && jobs[i].1 == old(rows)[jobs[i].0]
    {
      var selected := SelectForUpdate(at, locked, batchSize);
      jobs := [];
      for i := 0 to |selected|
        invariant |jobs| == i
        invariant forall j :: 0 <= j < i ==>
                    jobs[j].0 == selected[j] && selected[j] in rows && jobs[j].1 == rows[selected[j]]
      {
        assert selected[i] in selected;
        jobs := jobs + [(selected[i], rows[selected[i]])];
      }
      assert Ids(jobs) == selected;
      if |jobs| == 0 {
        assert ClaimRows(rows, [], at) == rows;
        return;
      }
      var ids: seq<JobId> := [];
      for i := 0 to |jobs|
        invariant ids == selected[..i]
      {
        ids := ids + [jobs[i].0];
      }
      assert ids == selected;
      rows := ClaimRows(rows, ids, at);
    }

    method MarkCompleted(id: JobId, now: int)
      modifies this
      ensures rows == ApplyMark(old(rows), id, Complete, now)
    {
      if id in rows {
        rows := rows[id := rows[id].(status := Completed, completedAt := Some(now), runningSince := None)];
      }
    }

    method MarkFailed(id: JobId, nextRunAt: int, now: int)
      modifies this
      ensures rows == ApplyMark(old(rows), id, Fail(nextRunAt), now)
    {
      if id in rows {
        rows := rows[id := rows[id].(status := Failed, nextRunAt := nextRunAt,
                                     attempts := rows[id].attempts + 1, runningSince := None)];
      }
    }

    method MarkDead(id: JobId, now: int)
      modifies this
      ensures rows == ApplyMark(old(rows), id, Die, now)
    {
      if id in rows {
        rows := rows[id := rows[id].(status := Dead, attempts := rows[id].attempts + 1, runningSince := None)];
      }
    }

    /** UPDATE ... WHERE status = 'running' AND running_since < cutoff, with the affected-row count. */
    method ResetStuck(at: int, now: int, olderThan: int) returns (count: nat)
      modifies this
      ensures rows == ResetRows(old(rows), at - olderThan, now)
      ensures count == |StuckIds(old(rows), at - olderThan)|
      ensures rows.Keys == old(rows).Keys
      ensures forall id :: id in rows ==>
                var r := old(rows)[id];
                rows[id] ==
                if r.status == Running && r.runningSince.Some? && r.runningSince.value < at - olderThan
                then r.(status := Pending, nextRunAt := now, runningSince := None) else r
    {
      var cutoff := at - olderThan;
      var todo := StuckIds(rows, cutoff);
      ghost var before := rows;
      count := 0;
      while todo != {}
        invariant todo <= StuckIds(before, cutoff)
        invariant rows.Keys == before.Keys
        invariant forall id :: id in before ==>
                    rows[id] == if id in StuckIds(before, cutoff) - todo then AsReset(before[id], now) else before[id]
        invariant count + |todo| == |StuckIds(before, cutoff)|
        decreases |todo|
      {
        var id :| id in todo;
        rows := rows[id := AsReset(rows[id], now)];
        todo := todo - {id};
        count := count + 1;
      }
      forall id | id in before
        ensures rows[id] == ResetRows(before, cutoff, now)[id]
      {
        assert id in StuckIds(before, cutoff) <==> Stuck(before[id], cutoff);
      }
      assert rows.Keys == ResetRows(before, cutoff, now).Keys;
      assert rows == ResetRows(before, cutoff, now);
    }
  }

  /** A selection in progress: the selectable rows are those taken, in order, and the rest, which
      are due no earlier. */
  ghost predicate Selected(rows: Rows, locked: set<JobId>, at: int, ids: seq<JobId>, rest: set<JobId>) {
    && Distinct(ids)
    && (forall id :: Selectable(rows, locked, at, id) <==> id in ids || id in rest)
    && (forall id :: id in ids ==> id !in rest)
    && (forall i, j :: 0 <= i < j < |ids| && ids[i] in rows && ids[j] in rows ==>
          rows[ids[i]].nextRunAt <= rows[ids[j]].nextRunAt)
    && (forall id, other :: id in ids && other in rest && id in rows && other in rows ==>
          rows[id].nextRunAt <= rows[other].nextRunAt)
  }

  lemma SelectNext(rows: Rows, locked: set<JobId>, at: int, ids: seq<JobId>, rest: set<JobId>, first: JobId)
    requires Selected(rows, locked, at, ids, rest) && first in rest && rest <= rows.Keys
    requires forall id :: id in rest ==> rows[first].nextRunAt <= rows[id].nextRunAt
    ensures Selected(rows, locked, at, ids + [first], rest - {first})
  {
  }

  lemma SelectedIsSelection(rows: Rows, locked: set<JobId>, at: int, limit: nat, ids: seq<JobId>, rest: set<JobId>)
    requires Selected(rows, locked, at, ids, rest) && |ids| <= limit && (|ids| == limit || rest == {})
    ensures IsSelection(rows, locked, at, limit, ids)
  {
  }

  function StuckIds(rows: Rows, cutoff: int): set<JobId> {
    set id | id in rows && Stuck(rows[id], cutoff)
  }

  function Ids(jobs: seq<(JobId, Row)>): (ids: seq<JobId>)
    ensures |ids| == |jobs|
  {
    seq(|jobs|, i requires 0 <= i < |jobs| => jobs[i].0)
  }

  datatype AuditAction = TransitionSuccess | TransitionFailed(attempt: int) | JobDead | StuckReset(count: nat)

  datatype AuditEntry = AuditEntry(job: Option<JobId>, action: AuditAction)

  /** The audit trail one `process` call leaves. */
  ghost function ProcessAudit(id: JobId, snap: Row, succeeds: bool, givenUp: bool): seq<AuditEntry> {
    if succeeds then [AuditEntry(Some(id), TransitionSuccess)]
    else if givenUp then
      [AuditEntry(Some(id), TransitionFailed(snap.attempts + 1)), AuditEntry(Some(id), JobDead)]
    else [AuditEntry(Some(id), TransitionFailed(snap.attempts + 1))]
  }

  class Processor {
    const repo: JobRepo
    const executor: Executor.JiraExecutor
    var audit: seq<AuditEntry>

    constructor (repo: JobRepo, executor: Executor.JiraExecutor)
      ensures this.repo == repo && this.executor == executor && audit == []
    {
      this.repo := repo;
      this.executor := executor;
      audit := [];
    }

    /** Execute the job from its snapshot and issue exactly one mark; `at` is the clock read for the
        retry time, `now` the time of the update. The row, and the audit trail, are what the
        configuration and Jira's answer call for. */
    method Process(id: JobId, snap: Row, ans: Executor.Answers, at: int, now: int) returns (outcome: Outcome)
      modifies this, repo, executor`calls
      ensures outcome == Executor.OutcomeOf(executor.cfg, snap.target, ans)
      ensures repo.rows == ApplyMark(old(repo.rows), id, Decide(snap, outcome, at), now)
      ensures repo.rows.Keys == old(repo.rows).Keys
      ensures forall j :: j in repo.rows && j != id ==> repo.rows[j] == old(repo.rows)[j]
      ensures id in repo.rows ==> RowAfter(executor.cfg, snap, ans, at, now, old(repo.rows)[id], repo.rows[id])
      ensures audit == old(audit) + ProcessAudit(id, snap, Succeeds(executor.cfg, snap.target, ans),
                                                 GivenUp(executor.cfg, snap, ans))
      ensures old(executor.calls) <= executor.calls
      ensures |Executor.TransitionCalls(executor.calls[|old(executor.calls)|..])| ==
              if Executor.NotConfigured(executor.cfg, snap.target) || !Executor.Datable(executor.cfg, snap.target)
              then 0 else 1
    {
      outcome := executor.Execute(snap.issueKey, snap.target, at, ans);
      MarkExactly(executor.cfg, snap, ans, at, now, if id in repo.rows then repo.rows[id] else snap);
      if outcome.Moved? || outcome.Skipped? {
        repo.MarkCompleted(id, now);
        audit := audit + [AuditEntry(Some(id), TransitionSuccess)];
        return;
      }
      audit := audit + [AuditEntry(Some(id), TransitionFailed(snap.attempts + 1))];
      if outcome.Permanent? {
        repo.MarkDead(id, now);
        audit := audit + [AuditEntry(Some(id), JobDead)];
        return;
      }
      if snap.attempts + 1 >= snap.maxAttempts {
        repo.MarkDead(id, now);
        audit := audit + [AuditEntry(Some(id), JobDead)];
        return;
      }
      var next := Backoff.NextBackoff(snap.attempts);
      repo.MarkFailed(id, at + next, now);
    }
  }

  class Reconciler {
    const repo: JobRepo
    const stuckJobTimeout: int
    var audit: seq<AuditEntry>

    constructor (repo: JobRepo, stuckJobTimeout: int)
      ensures this.repo == repo && this.stuckJobTimeout == stuckJobTimeout && audit == []
    {
      this.repo := repo;
      this.stuckJobTimeout := stuckJobTimeout;
      audit := [];
    }

    /** One tick: reset what is stuck, and leave one audit entry exactly when something was. */
    method ResetStuckJobs(at: int, now: int)
      modifies this, repo
      ensures repo.rows == ResetRows(old(repo.rows), at - stuckJobTimeout, now)
      ensures var n := |StuckIds(old(repo.rows), at - stuckJobTimeout)|;
              audit == if n > 0 then old(audit) + [AuditEntry(None, StuckReset(n))] else old(audit)
    {
      var count := repo.ResetStuck(at, now, stuckJobTimeout);
      if count > 0 {
        audit := audit + [AuditEntry(None, StuckReset(count))];
      }
    }
  }
}
