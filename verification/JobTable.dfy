/**
 The table of persistent jobs. Every SQL statement is one step, except that Fetch picks and locks a
 row first (FOR UPDATE SKIP LOCKED) and updates it in a second step.
 */
module JobTable {
  import opened Options

  type JobId = nat
  type Time = int

  datatype Status = Pending | Running | Completed | Dead

  datatype Row = Row(name: string, queue: string, payload: string, priority: int, status: Status,
                     attempts: nat, maxAttempts: nat, lockedBy: string, lastError: string, createdAt: Time,
                     startedAt: Option<Time>, completedAt: Option<Time>, failedAt: Option<Time>)

  type Rows = map<JobId, Row>

  const MAX_ATTEMPTS := 3

  /** What the columns can store. */
  predicate Fits(name: string, queue: string, priority: int) {
    |name| <= 255 && |queue| <= 100 && -0x8000_0000 <= priority < 0x8000_0000
  }

  // ----- The statements -----

  function NewRow(name: string, queue: string, payload: string, priority: int, now: Time): Row {
    Row(name, queue, payload, priority, Pending, 0, MAX_ATTEMPTS, "", "", now, None, None, None)
  }

  function Started(row: Row, worker: string, now: Time): Row {
    row.(status := Running, attempts := row.attempts + 1, startedAt := Some(now), lockedBy := worker)
  }

  function Finished(row: Row, now: Time): Row {
    row.(status := Completed, completedAt := Some(now), lockedBy := "")
  }

  function Failed(row: Row, msg: string, now: Time): Row {
    row.(status := if row.attempts < row.maxAttempts then Pending else Dead,
         lastError := msg, failedAt := Some(now), lockedBy := "")
  }

  function Buried(row: Row, msg: string, now: Time): Row {
    row.(status := Dead, lastError := msg, failedAt := Some(now), lockedBy := "")
  }

  function Retried(row: Row): Row {
    row.(status := Pending, attempts := 0, lastError := "", failedAt := None, startedAt := None, lockedBy := "")
  }

  predicate Expired(row: Row, before: Time) {
    row.status == Completed && row.completedAt.Some? && row.completedAt.value < before
  }

  function Sweep(rows: Rows, before: Time): set<JobId> {
    set id | id in rows && Expired(rows[id], before)
  }

  /** Goes first: the higher priority, then the older row. */
  predicate Precedes(a: Row, b: Row) {
    a.priority > b.priority || (a.priority == b.priority && a.createdAt < b.createdAt)
  }

  predicate Candidate(rows: Rows, locked: set<JobId>, queues: seq<string>, id: JobId) {
    id in rows && rows[id].status == Pending && rows[id].queue in queues && id !in locked
  }

  /** What the sub-query of Fetch returns; rows that tie may be returned in any order. */
  predicate Best(rows: Rows, locked: set<JobId>, queues: seq<string>, id: JobId) {
    && Candidate(rows, locked, queues, id)
    && forall other :: other in rows && Candidate(rows, locked, queues, other) ==> !Precedes(rows[other], rows[id])
  }

  lemma {:induction false} BestExists(rows: Rows, ids: set<JobId>) returns (best: JobId)
    requires ids <= rows.Keys && ids != {}
    ensures best in ids && forall other :: other in ids ==>
      || rows[best].priority > rows[other].priority
      || (rows[best].priority == rows[other].priority && rows[best].createdAt <= rows[other].createdAt)
    decreases |ids|
  {
    var id :| id in ids;
    if ids == {id} {
      best := id;
    } else {
      var rest := BestExists(rows, ids - {id});
      best := if Precedes(rows[id], rows[rest]) then id else rest;
    }
  }
}
