/**
 The job backend: its operations one at a time, and runs in which the statements of any number of
 workers and callers interleave. Complete, Fail and Dead have no guard, so a call may come late, for a
 job that somebody else holds by then.
 */
module JobQueue {
  import opened Options
  import opened JobTable
  import opened JobStats

  datatype Fetch = NoJob | Job(id: JobId, row: Row) | FetchError

  class PgBackend {
    var rows: Rows
    var lastId: JobId

    constructor ()
      ensures rows == map[] && lastId == 0
    {
      rows, lastId := map[], 0;
    }

    ghost predicate Valid()
      reads this
    {
      RowsInv(rows) && forall id :: id in rows ==> id <= lastId
    }

    /** `payload`: None when the job does not marshal. */
    method Enqueue(name: string, queue: string, payload: Option<string>, priority: int, now: Time)
      returns (ok: bool)
      requires Valid()
      modifies this
      ensures Valid()
      ensures ok ==
        (payload.Some? && |name| <= 255 && |queue| <= 100 && -0x8000_0000 <= priority < 0x8000_0000)
      ensures ok ==> lastId == old(lastId) + 1 && lastId !in old(rows)
      ensures ok ==>
        && rows == After(old(rows), Op.Insert(lastId, name, queue, payload.value, priority, now))
        && rows.Keys == old(rows).Keys + {lastId} && (forall id :: id in old(rows) ==> rows[id] == old(rows)[id])
        && var row := rows[lastId];
        && row.name == name && row.queue == queue && row.payload == payload.value && row.priority == priority
        && row.status == Pending && row.attempts == 0 && row.maxAttempts == 3 && row.createdAt == now
        && row.lockedBy == "" && row.lastError == ""
        && row.startedAt == None && row.completedAt == None && row.failedAt == None
      ensures !ok ==> rows == old(rows)
    {
      ok := payload.Some? && Fits(name, queue, priority);
      if ok {
        lastId := lastId + 1;
        rows := rows[lastId := NewRow(name, queue, payload.value, priority, now)];
      }
    }

    /** `locked`: the rows other transactions have locked. */
    method Fetch(queues: seq<string>, worker: string, locked: set<JobId>, now: Time) returns (r: Fetch)
      requires Valid()
      modifies `rows
      ensures Valid()
      ensures r == NoJob <==> forall id :: id in old(rows) && id !in locked ==>
        old(rows)[id].status != Pending || old(rows)[id].queue !in queues
      ensures r == FetchError <==> r != NoJob && |worker| > 255
      ensures !r.Job? ==> rows == old(rows)
      ensures r.Job? ==>
        && Best(old(rows), locked, queues, r.id) && r.id !in locked && r.id in old(rows)
        && var was := old(rows)[r.id];
        && was.status == Pending && was.queue in queues
        && (forall other :: other in old(rows) && other !in locked
                            && old(rows)[other].status == Pending && old(rows)[other].queue in queues ==>
              || was.priority > old(rows)[other].priority
              || (was.priority == old(rows)[other].priority && was.createdAt <= old(rows)[other].createdAt))
        && r.row == was.(status := Running, attempts := was.attempts + 1, startedAt := Some(now), lockedBy := worker)
        && rows == old(rows)[r.id := r.row]
    {
      if queues == [] {
        return NoJob;
      }
      var ids := set id | id in rows && Candidate(rows, locked, queues, id);
      if ids == {} {
        assert forall id :: id in rows && Candidate(rows, locked, queues, id) ==> id in ids;
        return NoJob;
      }
      ghost var best := BestExists(rows, ids);
      assert Best(rows, locked, queues, best);
      var id :| id in rows && Best(rows, locked, queues, id);
      assert Best(rows, locked, queues, id);
      assert RowInv(rows[id]);
      if |worker| > 255 {
        return FetchError;
      }
      rows := rows[id := Started(rows[id], worker, now)];
      r := Job(id, rows[id]);
    }

    method Complete(id: JobId, now: Time) returns (ok: bool)
      requires Valid()
      modifies `rows
      ensures Valid()
      ensures ok == (id in old(rows))
      ensures rows == After(old(rows), Op.Complete(id, now))
      ensures ok ==>
        rows == old(rows)[id := old(rows)[id].(status := Completed, completedAt := Some(now), lockedBy := "")]
      ensures !ok ==> rows == old(rows)
    {
      ok := id in rows;
      if ok {
        rows := rows[id := Finished(rows[id], now)];
      }
    }

    /** `err`: None when the caller passes no error. */
    method Fail(id: JobId, err: Option<string>, now: Time) returns (ok: bool)
      requires Valid()
      modifies `rows
      ensures Valid()
      ensures ok == (id in old(rows))
      ensures rows == After(old(rows), Op.Fail(id, Message(err), now))
      ensures ok ==>
        var was := old(rows)[id];
        && rows == old(rows)[id := rows[id]]
        && (rows[id].status == Pending <==> was.attempts < was.maxAttempts)
        && (rows[id].status == Status.Dead <==> was.attempts == was.maxAttempts)
        && rows[id] == was.(status := rows[id].status, lastError := rows[id].lastError, failedAt := Some(now),
                            lockedBy := "")
        && rows[id].lastError == (if err == None then "" else err.value)
      ensures !ok ==> rows == old(rows)
    {
      ok := id in rows;
      if ok {
        rows := rows[id := Failed(rows[id], Message(err), now)];
      }
    }

    method Dead(id: JobId, err: Option<string>, now: Time) returns (ok: bool)
      requires Valid()
      modifies `rows
      ensures Valid()
      ensures ok == (id in old(rows))
      ensures rows == After(old(rows), Op.Kill(id, Message(err), now))
      ensures ok ==>
        rows == old(rows)[id := old(rows)[id].(status := Status.Dead, failedAt := Some(now), lockedBy := "",
                                               lastError := if err == None then "" else err.value)]
      ensures !ok ==> rows == old(rows)
    {
      ok := id in rows;
      if ok {
        rows := rows[id := Buried(rows[id], Message(err), now)];
      }
    }

    method RetryDead(id: JobId) returns (ok: bool)
      requires Valid()
      modifies `rows
      ensures Valid()
      ensures ok == (id in old(rows) && old(rows)[id].status == Status.Dead)
      ensures rows == After(old(rows), Op.Retry(id))
      ensures ok ==>
        rows == old(rows)[id := old(rows)[id].(status := Pending, attempts := 0, lastError := "", failedAt := None,
                                               startedAt := None, lockedBy := "")]
      ensures !ok ==> rows == old(rows)
    {
      ok := id in rows && rows[id].status == Status.Dead;
      if ok {
        rows := rows[id := Retried(rows[id])];
      }
    }

    method Cleanup(before: Time) returns (n: nat)
      requires Valid()
      modifies `rows
      ensures Valid()
      ensures rows == After(old(rows), Op.Cleanup(before))
      ensures forall id :: id in old(rows) && id !in rows <==>
        && id in old(rows) && old(rows)[id].status == Completed
        && old(rows)[id].completedAt.Some? && old(rows)[id].completedAt.value < before
      ensures forall id :: id in rows ==> id in old(rows) && rows[id] == old(rows)[id]
      ensures n == |Sweep(old(rows), before)| && |rows| + n == |old(rows)|
    {
      var gone := Sweep(rows, before);
      n := |gone|;
      SweepCounts(rows, before);
      rows := rows - gone;
    }

    /** `groups`: the rows as the server grouped them. */
    method Stats(groups: seq<Group>) returns (stats: QueueStats)
      requires Groups(rows, groups)
      ensures CountsRows(stats, rows)
      ensures stats.pending + stats.running + stats.completed + stats.dead == |rows|
    {
      stats := Aggregate(rows, groups);
      StatusesPartition(rows);
    }
  }

  function Message(err: Option<string>): string {
    match err case None => "" case Some(msg) => msg
  }

  lemma SweepCounts(rows: Rows, before: Time)
    ensures |rows - Sweep(rows, before)| + |Sweep(rows, before)| == |rows|
  {
    var gone := Sweep(rows, before);
    assert (rows - gone).Keys == rows.Keys - gone && gone <= rows.Keys;
    assert rows.Keys == (rows.Keys - gone) + gone;
  }

  // ----- The invariant of the rows -----

  predicate RowInv(row: Row) {
    && row.attempts <= row.maxAttempts == MAX_ATTEMPTS
    && (row.status == Pending ==> row.attempts < row.maxAttempts)
    && (row.status == Running ==> row.startedAt.Some? && row.attempts > 0)
    && (row.status != Running ==> row.lockedBy == "")
    && (row.status == Completed ==> row.completedAt.Some?)
    && (row.status == Dead ==> row.failedAt.Some?)
  }

  ghost predicate RowsInv(rows: Rows) {
    forall id :: id in rows ==> RowInv(rows[id])
  }

  // ----- Interleaved runs -----

  /** `used`: the ids ever given out; concurrent inserts may commit them in any order.
      `picked`: the rows locked by a Fetch that has not updated them yet, and its worker. */
  datatype State = State(rows: Rows, used: set<JobId>, picked: map<JobId, string>)

  datatype Op =
    | Insert(id: JobId, name: string, queue: string, payload: string, priority: int, now: Time)
    | Pick(worker: string, queues: seq<string>, id: JobId)
    | Start(id: JobId, now: Time)       // the update of Fetch, which returns the job
    | Abandon(id: JobId)                // the update of Fetch fails
    | Complete(id: JobId, now: Time)
    | Fail(id: JobId, msg: string, now: Time)
    | Kill(id: JobId, msg: string, now: Time)
    | Retry(id: JobId)
    | Cleanup(before: Time)

  /** A statement that would write a locked row waits. */
  predicate Possible(s: State, op: Op) {
    match op
    case Insert(id, name, queue, _, priority, _) => id !in s.used && Fits(name, queue, priority)
    case Pick(worker, queues, id) => Best(s.rows, s.picked.Keys, queues, id)
    case Start(id, _) => id in s.picked && id in s.rows
    case Abandon(id) => id in s.picked
    case Cleanup(before) => forall id :: id in s.picked ==> id !in Sweep(s.rows, before)
    case _ => op.id !in s.picked
  }

  function Update(s: State, id: JobId, row: Row): State {
    s.(rows := s.rows[id := row])
  }

  function Do(s: State, op: Op): State
    requires Possible(s, op)
  {
    match op
    case Insert(id, name, queue, payload, priority, now) =>
      Update(s, id, NewRow(name, queue, payload, priority, now)).(used := s.used + {id})
    case Pick(worker, _, id) => s.(picked := s.picked[id := worker])
    case Start(id, now) => Update(s, id, Started(s.rows[id], s.picked[id], now)).(picked := s.picked - {id})
    case Abandon(id) => s.(picked := s.picked - {id})
    case Complete(id, now) => if id in s.rows then Update(s, id, Finished(s.rows[id], now)) else s
    case Fail(id, msg, now) => if id in s.rows then Update(s, id, Failed(s.rows[id], msg, now)) else s
    case Kill(id, msg, now) => if id in s.rows then Update(s, id, Buried(s.rows[id], msg, now)) else s
    case Retry(id) =>
      if id in s.rows && s.rows[id].status == Dead then Update(s, id, Retried(s.rows[id])) else s
    case Cleanup(before) => s.(rows := s.rows - Sweep(s.rows, before))
  }

  /** The rows after one step of an interleaved run, when nobody else has a row locked. */
  function After(rows: Rows, op: Op): Rows
    requires Possible(State(rows, {}, map[]), op)
  {
    Do(State(rows, {}, map[]), op).rows
  }

  /** Fetch as one call is its two steps with nothing in between. */
  lemma FetchIsPickThenStart(s: State, worker: string, queues: seq<string>, id: JobId, now: Time)
    requires Best(s.rows, s.picked.Keys, queues, id)
    ensures Possible(s, Pick(worker, queues, id)) && Possible(Do(s, Pick(worker, queues, id)), Start(id, now))
    ensures Do(Do(s, Pick(worker, queues, id)), Start(id, now))
      == s.(rows := s.rows[id := Started(s.rows[id], worker, now)])
  {
    assert s.picked[id := worker] - {id} == s.picked;
  }

  /** A Fetch whose update fails leaves everything as it was. */
  lemma FailedFetchChangesNothing(s: State, worker: string, queues: seq<string>, id: JobId)
    requires Possible(s, Pick(worker, queues, id))
    ensures Possible(Do(s, Pick(worker, queues, id)), Abandon(id))
    ensures Do(Do(s, Pick(worker, queues, id)), Abandon(id)) == s
  {
    assert s.picked[id := worker] - {id} == s.picked;
  }

  ghost predicate Inv(s: State) {
    && RowsInv(s.rows) && s.rows.Keys <= s.used
    && forall id :: id in s.picked ==> id in s.rows && s.rows[id].status == Pending
  }

  lemma OpKeepsInv(s: State, op: Op)
    requires Inv(s) && Possible(s, op)
    ensures Inv(Do(s, op))
  {
  }

  ghost predicate Run(states: seq<State>, ops: seq<Op>) {
    && |states| == |ops| + 1
    && states[0] == State(map[], {}, map[])
    && forall i :: 0 <= i < |ops| ==> Possible(states[i], ops[i]) && states[i + 1] == Do(states[i], ops[i])
  }

  /** In every reachable state, whatever stale calls came before. */
  lemma {:induction false} RunKeepsInv(states: seq<State>, ops: seq<Op>, i: nat)
    requires Run(states, ops) && i < |states|
    ensures Inv(states[i])
    decreases i
  {
    if i > 0 {
      RunKeepsInv(states, ops, i - 1);
      OpKeepsInv(states[i - 1], ops[i - 1]);
    }
  }

  // ----- Nobody gets a job twice -----

  /** The row exists or existed, and no Fetch can pick it now. */
  predicate Settled(s: State, id: JobId) {
    id in s.used && (id in s.rows ==> s.rows[id].status != Pending)
  }

  predicate Revives(s: State, op: Op, id: JobId) {
    (op.Fail? || op.Retry?) && op.id == id && id in s.rows
  }

  lemma OnlyRevivalUnsettles(s: State, op: Op, id: JobId)
    requires Inv(s) && Possible(s, op) && Settled(s, id)
    ensures Settled(Do(s, op), id) || Revives(s, op, id)
    ensures op.Start? ==> op.id != id
  {
  }

  /** A settled job is handed out again only after a call of Fail or RetryDead made it pending. */
  lemma {:induction false} RevivedBefore(states: seq<State>, ops: seq<Op>, i: nat, j: nat, id: JobId) returns (k: nat)
    requires Run(states, ops) && i < j < |ops|
    requires ops[j].Start? && ops[j].id == id && Settled(states[i], id)
    ensures i <= k < j && Revives(states[k], ops[k], id)
    ensures Settled(states[k], id) && !Settled(states[k + 1], id)
    decreases j - i
  {
    RunKeepsInv(states, ops, i);
    OnlyRevivalUnsettles(states[i], ops[i], id);
    if !Settled(states[i + 1], id) {
      k := i;
    } else if i + 1 < j {
      k := RevivedBefore(states, ops, i + 1, j, id);
    } else {
      RunKeepsInv(states, ops, j);
      OnlyRevivalUnsettles(states[j], ops[j], id);
      assert false;
    }
  }

  /** Between two hand-outs of a job, to whatever workers, somebody called Fail or RetryDead on it. */
  lemma NobodyGetsItTwice(states: seq<State>, ops: seq<Op>, i: nat, j: nat, id: JobId) returns (k: nat)
    requires Run(states, ops) && i < j < |ops|
    requires ops[i].Start? && ops[i].id == id && ops[j].Start? && ops[j].id == id
    ensures i < k < j && Revives(states[k], ops[k], id)
  {
    RunKeepsInv(states, ops, i);
    assert Settled(states[i + 1], id);
    RunKeepsInv(states, ops, j);
    k := RevivedBefore(states, ops, i + 1, j, id);
  }

  /** A completed job is not safe from a late Fail: it runs again exactly when attempts remain. */
  lemma LateFail(s: State, id: JobId, msg: string, now: Time)
    requires Inv(s) && id in s.rows && s.rows[id].status == Completed
    ensures Possible(s, Fail(id, msg, now))
    ensures Do(s, Fail(id, msg, now)).rows[id].status == Pending <==> s.rows[id].attempts < s.rows[id].maxAttempts
  {
  }

  /** One more step of a run. */
  lemma Next(states: seq<State>, ops: seq<Op>, op: Op) returns (longer: seq<State>, more: seq<Op>)
    requires Run(states, ops) && Possible(states[|ops|], op)
    ensures Run(longer, more) && more == ops + [op]
    ensures longer == states + [Do(states[|ops|], op)]
  {
    longer, more := states + [Do(states[|ops|], op)], ops + [op];
  }

  /** A run in which a completed job is handed out again, to a second worker. */
  lemma CompletedRunsAgain(name: string, queue: string, payload: string, priority: int, a: string, b: string)
    returns (states: seq<State>, ops: seq<Op>)
    requires Fits(name, queue, priority)
    ensures Run(states, ops)
    ensures ops == [Insert(1, name, queue, payload, priority, 0), Pick(a, [queue], 1), Start(1, 1), Complete(1, 2),
                    Fail(1, "late", 3), Pick(b, [queue], 1), Start(1, 4)]
    ensures 1 in states[4].rows && states[4].rows[1].status == Completed
    ensures 1 in states[7].rows && states[7].rows[1].status == Running && states[7].rows[1].lockedBy == b
  {
    states, ops := [State(map[], {}, map[])], [];
    states, ops := Next(states, ops, Insert(1, name, queue, payload, priority, 0));
    states, ops := Next(states, ops, Pick(a, [queue], 1));
    states, ops := Next(states, ops, Start(1, 1));
    states, ops := Next(states, ops, Complete(1, 2));
    states, ops := Next(states, ops, Fail(1, "late", 3));
    states, ops := Next(states, ops, Pick(b, [queue], 1));
    states, ops := Next(states, ops, Start(1, 4));
  }

  /** A running job that fails goes back to the queue, or is dead when its attempts are used up. */
  lemma FailDecides(s: State, id: JobId, msg: string, now: Time)
    requires Inv(s) && id in s.rows && id !in s.picked
    ensures var t := Do(s, Fail(id, msg, now));
      && id in t.rows
      && (t.rows[id].status == Pending <==> s.rows[id].attempts < s.rows[id].maxAttempts)
      && (t.rows[id].status == Dead <==> s.rows[id].attempts == s.rows[id].maxAttempts)
  {
  }

  // ----- How often a job is handed out -----

  predicate StartsJob(op: Op, id: JobId) {
    op.Start? && op.id == id
  }

  function Starts(ops: seq<Op>, id: JobId): nat {
    if ops == [] then 0
    else Starts(ops[..|ops| - 1], id) + (if StartsJob(ops[|ops| - 1], id) then 1 else 0)
  }

  predicate Retries(s: State, op: Op, id: JobId) {
    op.Retry? && op.id == id && id in s.rows && s.rows[id].status == Dead
  }

  /** The successful RetryDead calls for a job. */
  function RetryCount(states: seq<State>, ops: seq<Op>, id: JobId): nat
    requires |states| > |ops|
  {
    if ops == [] then 0
    else
      var last := |ops| - 1;
      RetryCount(states[..|ops|], ops[..last], id) + (if Retries(states[last], ops[last], id) then 1 else 0)
  }

  /** Attempts made since the last RetryDead, as far as the table shows. */
  function Made(s: State, id: JobId): nat {
    if id in s.rows then s.rows[id].attempts else if id in s.used then MAX_ATTEMPTS else 0
  }

  lemma MadeGrows(s: State, op: Op, id: JobId)
    requires Inv(s) && Possible(s, op)
    ensures Made(s, id) + (if StartsJob(op, id) then 1 else 0)
      <= Made(Do(s, op), id) + (if Retries(s, op, id) then MAX_ATTEMPTS else 0)
  {
  }

  lemma {:induction false} StartsCounted(states: seq<State>, ops: seq<Op>, id: JobId)
    requires Run(states, ops)
    ensures Starts(ops, id) <= Made(states[|ops|], id) + MAX_ATTEMPTS * RetryCount(states, ops, id)
    decreases |ops|
  {
    if ops != [] {
      var last := |ops| - 1;
      StartsCounted(states[..|ops|], ops[..last], id);
      RunKeepsInv(states, ops, last);
      MadeGrows(states[last], ops[last], id);
    }
  }

  /** No job is handed out more than max_attempts times, and that often again for each RetryDead. */
  lemma AtMostMaxAttempts(states: seq<State>, ops: seq<Op>, id: JobId)
    requires Run(states, ops)
    ensures Starts(ops, id) <= MAX_ATTEMPTS * (1 + RetryCount(states, ops, id))
  {
    StartsCounted(states, ops, id);
    RunKeepsInv(states, ops, |ops|);
  }

  // ----- A job that keeps failing -----

  predicate FailsJob(op: Op, id: JobId) {
    op.Fail? && op.id == id
  }

  function Failures(ops: seq<Op>, id: JobId): nat {
    if ops == [] then 0
    else Failures(ops[..|ops| - 1], id) + (if FailsJob(ops[|ops| - 1], id) then 1 else 0)
  }

  /** Nothing becomes of the job but failures, each reported while it runs. */
  ghost predicate OnlyFails(states: seq<State>, ops: seq<Op>, id: JobId)
    requires |states| > |ops|
  {
    forall k :: 0 <= k < |ops| ==>
      && (ops[k].Complete? || ops[k].Kill? || ops[k].Retry? ==> ops[k].id != id)
      && (FailsJob(ops[k], id) ==> id in states[k].rows && states[k].rows[id].status == Running)
  }

  /** How a job stands that was handed out `starts` times and failed `failures` times. */
  predicate Standing(s: State, id: JobId, starts: nat, failures: nat) {
    if id !in s.used then starts == 0 && failures == 0
    else
      && id in s.rows && s.rows[id].attempts == starts <= 3 && s.rows[id].maxAttempts == 3
      && failures <= starts <= failures + 1
      && (s.rows[id].status == Running <==> starts == failures + 1)
      && (s.rows[id].status == Pending <==> starts == failures && failures < 3)
      && (s.rows[id].status == Dead <==> failures == 3)
  }

  lemma OpKeepsStanding(s: State, op: Op, id: JobId, starts: nat, failures: nat)
    requires Inv(s) && Possible(s, op) && Standing(s, id, starts, failures)
    requires op.Complete? || op.Kill? || op.Retry? ==> op.id != id
    requires FailsJob(op, id) ==> id in s.rows && s.rows[id].status == Running
    ensures Standing(Do(s, op), id, starts + (if StartsJob(op, id) then 1 else 0),
                     failures + (if FailsJob(op, id) then 1 else 0))
  {
  }

  /** A job whose every hand-out fails is waiting again after the first two failures, is handed out three
      times in all, and then is dead. */
  lemma {:induction false} RetriedThreeTimes(states: seq<State>, ops: seq<Op>, id: JobId)
    requires Run(states, ops) && OnlyFails(states, ops, id)
    ensures Standing(states[|ops|], id, Starts(ops, id), Failures(ops, id))
    decreases |ops|
  {
    if ops != [] {
      var last := |ops| - 1;
      RetriedThreeTimes(states[..|ops|], ops[..last], id);
      RunKeepsInv(states, ops, last);
      OpKeepsStanding(states[last], ops[last], id, Starts(ops[..last], id), Failures(ops[..last], id));
    }
  }

  /** One more try of the only job, which fails. */
  lemma FailingTry(states: seq<State>, ops: seq<Op>, worker: string, row: Row)
    returns (longer: seq<State>, more: seq<Op>)
    requires Run(states, ops) && states[|ops|] == State(map[1 := row], {1}, map[])
    requires row.status == Pending && row.attempts < row.maxAttempts
    ensures Run(longer, more) && more == ops + [Pick(worker, [row.queue], 1), Start(1, 1), Fail(1, "boom", 2)]
    ensures var next :=
        row.(status := if row.attempts + 1 < row.maxAttempts then Pending else Dead, attempts := row.attempts + 1,
             startedAt := Some(1), lastError := "boom", failedAt := Some(2), lockedBy := "");
      longer[|more|] == State(map[1 := next], {1}, map[]) && longer[..|states|] == states
  {
    longer, more := Next(states, ops, Pick(worker, [row.queue], 1));
    longer, more := Next(longer, more, Start(1, 1));
    longer, more := Next(longer, more, Fail(1, "boom", 2));
    assert longer[|more|].picked == map[];
  }

  /** Such a run exists: three tries, and the job is dead. */
  lemma ThreeTries(name: string, queue: string, payload: string, priority: int, worker: string)
    returns (states: seq<State>, ops: seq<Op>)
    requires Fits(name, queue, priority)
    ensures Run(states, ops)
    ensures var try := [Pick(worker, [queue], 1), Start(1, 1), Fail(1, "boom", 2)];
      ops == [Insert(1, name, queue, payload, priority, 0)] + try + try + try
    ensures 1 in states[4].rows && states[4].rows[1].status == Pending
    ensures 1 in states[7].rows && states[7].rows[1].status == Pending
    ensures 1 in states[10].rows && states[10].rows[1].status == Dead && states[10].rows[1].attempts == 3
  {
    states, ops := [State(map[], {}, map[])], [];
    states, ops := Next(states, ops, Insert(1, name, queue, payload, priority, 0));
    assert states[1].rows == map[1 := NewRow(name, queue, payload, priority, 0)];
    hide Possible, Do;
    states, ops := FailingTry(states, ops, worker, states[1].rows[1]);
    states, ops := FailingTry(states, ops, worker, states[4].rows[1]);
    states, ops := FailingTry(states, ops, worker, states[7].rows[1]);
  }

  // ----- Order -----

  predicate Refills(op: Op) {
    op.Insert? || op.Fail? || op.Retry?
  }

  /** While nothing becomes pending, a row that can be picked could be picked before. */
  lemma {:induction false} WasCandidate(states: seq<State>, ops: seq<Op>, i: nat, j: nat, id: JobId)
    requires Run(states, ops) && i <= j < |states|
    requires forall k :: i <= k < j ==> !Refills(ops[k])
    requires id in states[j].rows && states[j].rows[id].status == Pending
    ensures id in states[i].rows && states[i].rows[id] == states[j].rows[id]
    decreases j - i
  {
    if i < j {
      RunKeepsInv(states, ops, j - 1);
      WasCandidate(states, ops, i, j - 1, id);
    }
  }

  /** Workers that empty the queues get the jobs in order: while nothing is added or made pending
      again, a job that is picked later and was not already being picked does not precede one that
      is picked earlier from queues which include its own. */
  lemma PicksInOrder(states: seq<State>, ops: seq<Op>, i: nat, j: nat)
    requires Run(states, ops) && i < j < |ops| && ops[i].Pick? && ops[j].Pick?
    requires forall k :: i <= k < j ==> !Refills(ops[k])
    requires ops[j].id !in states[i].picked && states[j].rows[ops[j].id].queue in ops[i].queues
    ensures ops[i].id in states[i].rows && ops[j].id in states[i].rows
    ensures var first, second := states[i].rows[ops[i].id], states[i].rows[ops[j].id];
      || first.priority > second.priority
      || (first.priority == second.priority && first.createdAt <= second.createdAt)
  {
    WasCandidate(states, ops, i, j, ops[j].id);
    assert Candidate(states[i].rows, states[i].picked.Keys, ops[i].queues, ops[j].id);
  }

  // ----- Emptying the queues -----

  /** One worker, or several that take turns, picks from the same queues and has each pick settled before
      the next. */
  ghost predicate TakesTurns(states: seq<State>, ops: seq<Op>, queues: seq<string>, i: nat, j: nat)
    requires Run(states, ops) && i <= j < |states|
  {
    && states[i].picked == map[]
    && forall k :: i <= k < j ==>
         !Refills(ops[k]) && (ops[k].Pick? ==> states[k].picked == map[] && ops[k].queues == queues)
  }

  /** The jobs handed out, in that order. */
  function Handed(ops: seq<Op>, i: nat, j: nat): seq<JobId>
    requires i <= j <= |ops|
  {
    if i == j then []
    else Handed(ops, i, j - 1) + (if ops[j - 1].Start? then [ops[j - 1].id] else [])
  }

  function Waiting(s: State, queues: seq<string>): set<JobId> {
    set id | id in s.rows && s.rows[id].status == Pending && s.rows[id].queue in queues
  }

  /** The one job being fetched goes before everything that waits. */
  predicate PickedFirst(s: State, queues: seq<string>) {
    forall id :: id in s.picked ==>
      && s.picked.Keys == {id} && id in Waiting(s, queues)
      && forall other :: other in Waiting(s, queues) ==> !Precedes(s.rows[other], s.rows[id])
  }

  lemma StepKeepsFirst(s: State, op: Op, queues: seq<string>)
    requires Inv(s) && Possible(s, op) && PickedFirst(s, queues) && !Refills(op)
    requires op.Pick? ==> s.picked == map[] && op.queues == queues
    ensures PickedFirst(Do(s, op), queues) && Waiting(Do(s, op), queues) <= Waiting(s, queues)
    ensures forall id :: id in Waiting(Do(s, op), queues) ==> Do(s, op).rows[id] == s.rows[id]
  {
    match op
    case Pick(_, _, id) => assert s.picked.Keys == {} && Do(s, op).picked.Keys == {id};
    case _ =>
  }

  lemma {:induction false} StaysFirst(states: seq<State>, ops: seq<Op>, queues: seq<string>, i: nat, j: nat)
    requires Run(states, ops) && i <= j < |states| && TakesTurns(states, ops, queues, i, j)
    ensures PickedFirst(states[j], queues)
    decreases j
  {
    if i < j {
      StaysFirst(states, ops, queues, i, j - 1);
      RunKeepsInv(states, ops, j - 1);
      StepKeepsFirst(states[j - 1], ops[j - 1], queues);
    }
  }

  lemma {:induction false} HandedAt(ops: seq<Op>, i: nat, j: nat, n: nat) returns (k: nat)
    requires i <= j <= |ops| && n < |Handed(ops, i, j)|
    ensures i <= k < j && ops[k].Start? && ops[k].id == Handed(ops, i, j)[n]
    ensures Handed(ops, i, k) == Handed(ops, i, j)[..n]
    decreases j
  {
    if n < |Handed(ops, i, j - 1)| {
      k := HandedAt(ops, i, j - 1, n);
    } else {
      k := j - 1;
    }
  }

  /** Everything handed out was waiting at the start, and comes in the order of priority, then age. */
  lemma DrainedInOrder(states: seq<State>, ops: seq<Op>, queues: seq<string>, i: nat, j: nat)
    requires Run(states, ops) && i <= j < |states| && TakesTurns(states, ops, queues, i, j)
    ensures var ids, rows := Handed(ops, i, j), states[i].rows;
      && (forall n :: 0 <= n < |ids| ==> ids[n] in Waiting(states[i], queues))
      && (forall m, n :: 0 <= m < n < |ids| ==> ids[m] != ids[n])
      && (forall m, n :: 0 <= m < n < |ids| ==>
            || rows[ids[m]].priority > rows[ids[n]].priority
            || (rows[ids[m]].priority == rows[ids[n]].priority && rows[ids[m]].createdAt <= rows[ids[n]].createdAt))
  {
    var ids := Handed(ops, i, j);
    forall n | 0 <= n < |ids| ensures ids[n] in Waiting(states[i], queues) {
      var k := HandedAt(ops, i, j, n);
      StartsWaiting(states, ops, queues, i, k);
    }
    forall m, n | 0 <= m < n < |ids|
      ensures ids[m] != ids[n] && !Precedes(states[i].rows[ids[n]], states[i].rows[ids[m]])
    {
      var b := HandedAt(ops, i, j, n);
      assert Handed(ops, i, b)[m] == ids[m];
      var a := HandedAt(ops, i, b, m);
      StartsWaiting(states, ops, queues, i, a);
      StartsWaiting(states, ops, queues, i, b);
      StaysFirst(states, ops, queues, i, a);
      WasCandidate(states, ops, a + 1, b, ids[n]);
      WasCandidate(states, ops, a, b, ids[n]);
    }
  }

  lemma StartsWaiting(states: seq<State>, ops: seq<Op>, queues: seq<string>, i: nat, k: nat)
    requires Run(states, ops) && i <= k < |ops| && TakesTurns(states, ops, queues, i, k) && ops[k].Start?
    ensures ops[k].id in Waiting(states[k], queues) && ops[k].id in Waiting(states[i], queues)
    ensures states[i].rows[ops[k].id] == states[k].rows[ops[k].id]
  {
    StaysFirst(states, ops, queues, i, k);
    WasCandidate(states, ops, i, k, ops[k].id);
  }

  /** Nobody completes or buries a job that was not handed out. */
  predicate Proper(s: State, op: Op) {
    (op.Complete? || op.Kill?) && op.id in s.rows ==> s.rows[op.id].status != Pending
  }

  function Members(ids: seq<JobId>): set<JobId> {
    set id | id in ids
  }

  /** Then nothing that waits is passed over: each job has been handed out or still waits. */
  lemma {:induction false} NothingSkipped(states: seq<State>, ops: seq<Op>, queues: seq<string>, i: nat, j: nat)
    requires Run(states, ops) && i <= j < |states| && TakesTurns(states, ops, queues, i, j)
    requires forall k :: i <= k < j ==> Proper(states[k], ops[k])
    ensures Members(Handed(ops, i, j)) + Waiting(states[j], queues) == Waiting(states[i], queues)
    ensures Members(Handed(ops, i, j)) !! Waiting(states[j], queues)
    decreases j
  {
    if i < j {
      NothingSkipped(states, ops, queues, i, j - 1);
      HandOutAt(states, ops, queues, i, j - 1);
      MembersGrow(ops, i, j);
      Moves(Members(Handed(ops, i, j - 1)), Waiting(states[j - 1], queues),
            if ops[j - 1].Start? then {ops[j - 1].id} else {});
    }
  }

  lemma Moves(done: set<JobId>, waiting: set<JobId>, moved: set<JobId>)
    requires done !! waiting && moved <= waiting
    ensures (done + moved) + (waiting - moved) == done + waiting && (done + moved) !! (waiting - moved)
  {
  }

  lemma MembersGrow(ops: seq<Op>, i: nat, j: nat)
    requires i < j <= |ops|
    ensures Members(Handed(ops, i, j))
      == Members(Handed(ops, i, j - 1)) + (if ops[j - 1].Start? then {ops[j - 1].id} else {})
  {
  }

  lemma HandOutAt(states: seq<State>, ops: seq<Op>, queues: seq<string>, i: nat, k: nat)
    requires Run(states, ops) && i <= k < |ops| && TakesTurns(states, ops, queues, i, k)
    requires !Refills(ops[k]) && Proper(states[k], ops[k])
    ensures ops[k].Start? ==> ops[k].id in Waiting(states[k], queues)
    ensures Waiting(states[k + 1], queues) == Waiting(states[k], queues) - (if ops[k].Start? then {ops[k].id} else {})
  {
    StaysFirst(states, ops, queues, i, k);
    RunKeepsInv(states, ops, k);
    HandOutOnce(states[k], ops[k], queues);
  }

  lemma HandOutOnce(s: State, op: Op, queues: seq<string>)
    requires Inv(s) && Possible(s, op) && PickedFirst(s, queues) && !Refills(op) && Proper(s, op)
    ensures op.Start? ==> op.id in Waiting(s, queues)
    ensures Waiting(Do(s, op), queues) == Waiting(s, queues) - (if op.Start? then {op.id} else {})
  {
    if op.Start? {
      assert op.id in s.picked;
    }
  }

  // ----- The work left, and conservation -----

  function Left(row: Row): int {
    row.maxAttempts - row.attempts
  }

  /** All attempts left, over all rows. */
  ghost function Work(rows: Rows): int
    decreases |rows|
  {
    if rows == map[] then 0
    else var id :| id in rows; Left(rows[id]) + Work(rows - {id})
  }

  lemma {:induction false} WorkWithout(rows: Rows, id: JobId)
    requires id in rows
    ensures Work(rows) == Left(rows[id]) + Work(rows - {id})
    decreases |rows|
  {
    var first :| first in rows && Work(rows) == Left(rows[first]) + Work(rows - {first});
    if first != id {
      WorkWithout(rows - {first}, id);
      WorkWithout(rows - {id}, first);
      assert rows - {first} - {id} == rows - {id} - {first};
    }
  }

  lemma WorkUpdate(rows: Rows, id: JobId, row: Row)
    ensures Work(rows[id := row]) == Work(rows) + Left(row) - (if id in rows then Left(rows[id]) else 0)
  {
    WorkWithout(rows[id := row], id);
    assert rows[id := row] - {id} == rows - {id};
    if id in rows {
      WorkWithout(rows, id);
    } else {
      assert rows - {id} == rows;
    }
  }

  lemma {:induction false} WorkNotNegative(rows: Rows)
    requires forall id :: id in rows ==> Left(rows[id]) >= 0
    ensures Work(rows) >= 0
    decreases |rows|
  {
    if rows != map[] {
      var id :| id in rows;
      WorkWithout(rows, id);
      WorkNotNegative(rows - {id});
    }
  }

  lemma {:induction false} WorkSwept(rows: Rows, gone: set<JobId>)
    requires gone <= rows.Keys && forall id :: id in rows ==> Left(rows[id]) >= 0
    ensures 0 <= Work(rows - gone) <= Work(rows)
    decreases |gone|
  {
    if gone == {} {
      assert rows - gone == rows;
      WorkNotNegative(rows);
    } else {
      var id :| id in gone;
      WorkWithout(rows, id);
      WorkSwept(rows - {id}, gone - {id});
      assert rows - {id} - (gone - {id}) == rows - gone;
    }
  }

  /** How one step changes the attempts left: Fetch uses up exactly one; only Enqueue and a
      successful RetryDead give some back. */
  lemma WorkChanges(s: State, op: Op)
    requires Inv(s) && Possible(s, op)
    ensures op.Start? ==> Work(Do(s, op).rows) == Work(s.rows) - 1
    ensures op.Insert? ==> Work(Do(s, op).rows) == Work(s.rows) + MAX_ATTEMPTS
    ensures op.Retry? && Retries(s, op, op.id) ==> Work(Do(s, op).rows) == Work(s.rows) + s.rows[op.id].attempts
    ensures op.Retry? && !Retries(s, op, op.id) ==> Work(Do(s, op).rows) == Work(s.rows)
    ensures op.Cleanup? ==> 0 <= Work(Do(s, op).rows) <= Work(s.rows)
    ensures op.Pick? || op.Abandon? || op.Complete? || op.Fail? || op.Kill? ==> Work(Do(s, op).rows) == Work(s.rows)
  {
    match op
    case Insert(id, name, queue, payload, priority, now) =>
      WorkUpdate(s.rows, id, NewRow(name, queue, payload, priority, now));
    case Start(id, now) => WorkUpdate(s.rows, id, Started(s.rows[id], s.picked[id], now));
    case Cleanup(before) => WorkSwept(s.rows, Sweep(s.rows, before));
    case Pick(_, _, _) =>
    case Abandon(_) =>
    case _ =>
      if op.id in s.rows {
        WorkUpdate(s.rows, op.id, Do(s, op).rows[op.id]);
      }
  }

  /** Hand-outs, of all jobs, among the steps from i to j. */
  function AllStarts(ops: seq<Op>, i: nat, j: nat): nat
    requires i <= j <= |ops|
    decreases j
  {
    if i == j then 0 else AllStarts(ops, i, j - 1) + (if ops[j - 1].Start? then 1 else 0)
  }

  /** Without Enqueue and RetryDead, fetching ends: there are no more hand-outs, to all workers
      together, than attempts were left. */
  lemma {:induction false} FetchingEnds(states: seq<State>, ops: seq<Op>, i: nat, j: nat)
    requires Run(states, ops) && i <= j < |states|
    requires forall k :: i <= k < j ==> !ops[k].Insert? && !ops[k].Retry?
    ensures AllStarts(ops, i, j) <= Work(states[i].rows) - Work(states[j].rows)
    ensures AllStarts(ops, i, j) <= Work(states[i].rows)
    decreases j - i
  {
    RunKeepsInv(states, ops, j);
    WorkNotNegative(states[j].rows);
    if i < j {
      FetchingEnds(states, ops, i, j - 1);
      RunKeepsInv(states, ops, j - 1);
      WorkChanges(states[j - 1], ops[j - 1]);
    }
  }

  function Inserted(ops: seq<Op>): nat {
    if ops == [] then 0 else Inserted(ops[..|ops| - 1]) + (if ops[|ops| - 1].Insert? then 1 else 0)
  }

  /** What all calls of Cleanup reported, together. */
  function Swept(states: seq<State>, ops: seq<Op>): nat
    requires |states| > |ops|
  {
    if ops == [] then 0
    else
      var last := |ops| - 1;
      Swept(states[..|ops|], ops[..last])
        + (if ops[last].Cleanup? then |Sweep(states[last].rows, ops[last].before)| else 0)
  }

  /** No job is lost: what was enqueued is in the table or was counted by a Cleanup. */
  lemma {:induction false} JobsConserved(states: seq<State>, ops: seq<Op>)
    requires Run(states, ops)
    ensures Inserted(ops) == |states[|ops|].rows| + Swept(states, ops)
    decreases |ops|
  {
    if ops != [] {
      var last := |ops| - 1;
      JobsConserved(states[..|ops|], ops[..last]);
      RunKeepsInv(states, ops, last);
      RowsCounted(states[last], ops[last]);
    }
  }

  lemma SameRows(s: State, op: Op)
    requires Inv(s) && Possible(s, op) && !op.Insert? && !op.Cleanup?
    ensures Do(s, op).rows.Keys == s.rows.Keys
  {
  }

  lemma RowsCounted(s: State, op: Op)
    requires Inv(s) && Possible(s, op)
    ensures |Do(s, op).rows.Keys| + (if op.Cleanup? then |Sweep(s.rows, op.before)| else 0)
      == |s.rows.Keys| + (if op.Insert? then 1 else 0)
  {
    if op.Cleanup? {
      SweepCounts(s.rows, op.before);
    } else if op.Insert? {
      assert Do(s, op).rows.Keys == s.rows.Keys + {op.id} && op.id !in s.rows.Keys;
    } else {
      SameRows(s, op);
    }
  }
}
