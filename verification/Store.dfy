/** The executions table as the process sees it: one method per SQL statement, updating in place. */
module Store {
  import opened Executions

  class ExecutionTable {
    var rows: Table
    var now: Time

    constructor (now: Time)
      ensures rows == map[] && this.now == now
    {
      rows, this.now := map[], now;
    }

    /** RETURNING yields the submitted columns when the guard held, ErrNoRows otherwise. */
    method MarkRunning(id: Id) returns (claimed: Option<Params>)
      modifies this`rows
      ensures rows == MarkExecutionRunning(old(rows), id, now)
      ensures claimed == if id in old(rows) && old(rows)[id].status.Queued? then Some(old(rows)[id].params) else None
    {
      claimed := None;
      if id in rows && rows[id].status.Queued? {
        claimed := Some(rows[id].params);
        rows := rows[id := rows[id].(status := Running, updatedAt := now)];
      }
    }

    method Requeue(id: Id) returns (affected: nat)
      modifies this`rows
      ensures rows == RequeueExecution(old(rows), id, now)
      ensures affected == if id in old(rows) && old(rows)[id].status.Running? then 1 else 0
    {
      affected := 0;
      if id in rows && rows[id].status.Running? {
        rows := rows[id := rows[id].(status := Queued, updatedAt := now)];
        affected := 1;
      }
    }

    /** The statement does not report whether it found a running row. */
    method Finish(id: Id, v: Result)
      modifies this`rows
      ensures rows == FinishExecution(old(rows), id, v, now)
    {
      if id in rows && rows[id].status.Running? {
        rows := rows[id := rows[id].(status := v.status, stdout := v.stdout, stderr := v.stderr,
                                     exitCode := v.exitCode, updatedAt := now)];
      }
    }

    /** `SetExecutionFailed` and `MarkStaleQueuedFailed`. */
    method FailIfQueued(id: Id, stderr: string) returns (affected: nat)
      modifies this`rows
      ensures rows == FailQueued(old(rows), id, stderr, now)
      ensures affected == if id in old(rows) && old(rows)[id].status.Queued? then 1 else 0
    {
      affected := 0;
      if id in rows && rows[id].status.Queued? {
        rows := rows[id := rows[id].(status := Failed, stderr := stderr, updatedAt := now)];
        affected := 1;
      }
    }

    /** One UPDATE over the whole table; the result is the number of rows it matched. */
    method ReapStale(secs: int) returns (affected: nat)
      modifies this`rows
      ensures rows == ReapStaleExecutions(old(rows), now, secs)
      ensures affected == |StaleIds(old(rows), now, secs)|
    {
      var hit := set id | id in rows && rows[id].status.Running? && rows[id].updatedAt < now - secs * SECOND;
      affected := |hit|;
      assert StaleIds(rows, now, secs) == hit;
      rows := map id | id in rows :: ReapRow(rows[id], now, secs);
    }

    method ListStale(secs: int) returns (ids: set<Id>)
      ensures ids == ListStaleQueued(rows, now, secs)
    {
      ids := set id | id in rows && rows[id].status.Queued? && rows[id].createdAt < now - secs * SECOND;
    }

    method Create(id: Id, p: Params, createdAt: Time)
      requires id !in rows
      modifies this`rows
      ensures rows == old(rows)[id := NewRow(p, createdAt)]
    {
      rows := rows[id := Row(p, Queued, "", "", None, createdAt, createdAt)];
    }
  }

  function StaleIds(t: Table, now: Time, secs: int): set<Id> {
    set id | id in t && StaleRunning(t[id], now, secs)
  }
}
