/** Stats: counting jobs from rows grouped by the server. */
module JobStats {
  import opened JobTable

  datatype Group = Group(queue: string, status: Status, count: nat)
  datatype QueueDetail = QueueDetail(name: string, pending: nat, running: nat)
  datatype QueueStats = QueueStats(pending: nat, running: nat, completed: nat, dead: nat,
                                   queues: map<string, QueueDetail>)

  function WithStatus(rows: Rows, status: Status): set<JobId> {
    set id | id in rows && rows[id].status == status
  }

  function InQueue(rows: Rows, queue: string, status: Status): set<JobId> {
    set id | id in rows && rows[id].status == status && rows[id].queue == queue
  }

  function GroupKeys(groups: seq<Group>, n: nat): set<(string, Status)>
    requires n <= |groups|
  {
    if n == 0 then {} else GroupKeys(groups, n - 1) + {(groups[n - 1].queue, groups[n - 1].status)}
  }

  function RowKeys(rows: Rows): set<(string, Status)> {
    set id | id in rows :: (rows[id].queue, rows[id].status)
  }

  /** The answer to GROUP BY queue, status: one group for each pair that occurs, in any order. */
  ghost predicate Groups(rows: Rows, groups: seq<Group>) {
    && GroupKeys(groups, |groups|) == RowKeys(rows)
    && forall i :: 0 <= i < |groups| ==>
         && (groups[i].queue, groups[i].status) !in GroupKeys(groups, i)
         && groups[i].count == |InQueue(rows, groups[i].queue, groups[i].status)|
  }

  /** The rows of that status whose group is among those read. */
  function Read(rows: Rows, keys: set<(string, Status)>, status: Status): set<JobId> {
    set id | id in rows && rows[id].status == status && (rows[id].queue, status) in keys
  }

  lemma ReadOneMore(rows: Rows, keys: set<(string, Status)>, queue: string, group: Status, status: Status)
    requires (queue, group) !in keys
    ensures |Read(rows, keys + {(queue, group)}, status)|
      == |Read(rows, keys, status)| + (if group == status then |InQueue(rows, queue, group)| else 0)
  {
    var more := Read(rows, keys + {(queue, group)}, status);
    if group == status {
      assert more == Read(rows, keys, status) + InQueue(rows, queue, group);
      assert Read(rows, keys, status) !! InQueue(rows, queue, group);
    } else {
      assert more == Read(rows, keys, status);
    }
  }

  function CountIn(rows: Rows, keys: set<(string, Status)>, queue: string, status: Status): nat {
    if (queue, status) in keys then |InQueue(rows, queue, status)| else 0
  }

  function Queues(keys: set<(string, Status)>): set<string> {
    set key | key in keys :: key.0
  }

  /** The statistics of the rows whose group is among those read. */
  function Tally(rows: Rows, keys: set<(string, Status)>): QueueStats {
    QueueStats(|Read(rows, keys, Pending)|, |Read(rows, keys, Running)|,
               |Read(rows, keys, Completed)|, |Read(rows, keys, Dead)|,
               map queue | queue in Queues(keys) ::
                 QueueDetail(queue, CountIn(rows, keys, queue, Pending), CountIn(rows, keys, queue, Running)))
  }

  /** One iteration of the loop of Stats. */
  function AddTotal(stats: QueueStats, status: Status, count: nat): QueueStats {
    match status
    case Pending => stats.(pending := stats.pending + count)
    case Running => stats.(running := stats.running + count)
    case Completed => stats.(completed := stats.completed + count)
    case Dead => stats.(dead := stats.dead + count)
  }

  function AddDetail(detail: QueueDetail, status: Status, count: nat): QueueDetail {
    match status
    case Pending => detail.(pending := detail.pending + count)
    case Running => detail.(running := detail.running + count)
    case _ => detail
  }

  function Detail(stats: QueueStats, queue: string): QueueDetail {
    (if queue in stats.queues then stats.queues[queue] else QueueDetail("", 0, 0)).(name := queue)
  }

  function Add(stats: QueueStats, g: Group): QueueStats {
    AddTotal(stats, g.status, g.count)
      .(queues := stats.queues[g.queue := AddDetail(Detail(stats, g.queue), g.status, g.count)])
  }

  lemma AddKeepsQueues(rows: Rows, keys: set<(string, Status)>, g: Group, queue: string)
    requires (g.queue, g.status) !in keys && g.count == |InQueue(rows, g.queue, g.status)|
    ensures Queues(keys + {(g.queue, g.status)}) == Queues(keys) + {g.queue}
    ensures queue in Queues(keys) + {g.queue} ==>
      Add(Tally(rows, keys), g).queues[queue] == Tally(rows, keys + {(g.queue, g.status)}).queues[queue]
  {
    var more := keys + {(g.queue, g.status)};
    forall q | q in Queues(keys) + {g.queue} ensures q in Queues(more) {
      var key := if q == g.queue then (g.queue, g.status) else var k :| k in keys && k.0 == q; k;
      assert key in more;
    }
    if g.queue !in Queues(keys) {
      assert (g.queue, Pending) !in keys && (g.queue, Running) !in keys;
    }
  }

  lemma AddKeepsTally(rows: Rows, keys: set<(string, Status)>, g: Group)
    requires (g.queue, g.status) !in keys && g.count == |InQueue(rows, g.queue, g.status)|
    ensures Add(Tally(rows, keys), g) == Tally(rows, keys + {(g.queue, g.status)})
  {
    var before, after := Add(Tally(rows, keys), g), Tally(rows, keys + {(g.queue, g.status)});
    ReadOneMore(rows, keys, g.queue, g.status, Pending);
    ReadOneMore(rows, keys, g.queue, g.status, Running);
    ReadOneMore(rows, keys, g.queue, g.status, Completed);
    ReadOneMore(rows, keys, g.queue, g.status, Dead);
    AddKeepsQueues(rows, keys, g, g.queue);
    forall queue | queue in Queues(keys) + {g.queue}
      ensures before.queues[queue] == after.queues[queue]
    {
      AddKeepsQueues(rows, keys, g, queue);
    }
    assert before.queues == after.queues;
  }

  lemma AllRead(rows: Rows, status: Status)
    ensures Read(rows, RowKeys(rows), status) == WithStatus(rows, status)
    ensures forall queue :: CountIn(rows, RowKeys(rows), queue, status) == |InQueue(rows, queue, status)|
  {
    forall queue | (queue, status) !in RowKeys(rows) ensures InQueue(rows, queue, status) == {} {
    }
  }

  lemma AllQueues(rows: Rows)
    ensures Queues(RowKeys(rows)) == set id | id in rows :: rows[id].queue
  {
    forall id | id in rows ensures rows[id].queue in Queues(RowKeys(rows)) {
      assert (rows[id].queue, rows[id].status) in RowKeys(rows);
    }
  }

  /** What Stats reports: every total counts the rows of its status, and there is a detail for
      exactly the queues that have rows, counting their pending and running rows. */
  ghost predicate CountsRows(stats: QueueStats, rows: Rows) {
    && stats.pending == |WithStatus(rows, Pending)| && stats.running == |WithStatus(rows, Running)|
    && stats.completed == |WithStatus(rows, Completed)| && stats.dead == |WithStatus(rows, Dead)|
    && stats.queues.Keys == (set id | id in rows :: rows[id].queue)
    && forall queue :: queue in stats.queues ==>
         stats.queues[queue] == QueueDetail(queue, |InQueue(rows, queue, Pending)|, |InQueue(rows, queue, Running)|)
  }

  lemma TallyOfAll(rows: Rows)
    ensures CountsRows(Tally(rows, RowKeys(rows)), rows)
  {
    AllRead(rows, Pending);
    AllRead(rows, Running);
    AllRead(rows, Completed);
    AllRead(rows, Dead);
    AllQueues(rows);
  }

  lemma TallyOfNone(rows: Rows)
    ensures Tally(rows, {}) == QueueStats(0, 0, 0, 0, map[])
  {
  }

  /** The loop of Stats, over the grouped rows in whatever order they come. */
  method Aggregate(ghost rows: Rows, groups: seq<Group>) returns (stats: QueueStats)
    requires Groups(rows, groups)
    ensures CountsRows(stats, rows)
  {
    TallyOfNone(rows);
    stats := QueueStats(0, 0, 0, 0, map[]);
    for i := 0 to |groups|
      invariant stats == Tally(rows, GroupKeys(groups, i))
    {
      AddKeepsTally(rows, GroupKeys(groups, i), groups[i]);
      stats := Add(stats, groups[i]);
    }
    TallyOfAll(rows);
  }

  /** The four totals of Stats sum to the rows present. */
  lemma StatusesPartition(rows: Rows)
    ensures |WithStatus(rows, Pending)| + |WithStatus(rows, Running)|
          + |WithStatus(rows, Completed)| + |WithStatus(rows, Dead)| == |rows|
  {
    var p, r := WithStatus(rows, Pending), WithStatus(rows, Running);
    var c, d := WithStatus(rows, Completed), WithStatus(rows, Dead);
    assert p !! r && p + r !! c && p + r + c !! d;
    forall id | id in rows ensures id in p + r + c + d {
      match rows[id].status case Pending => case Running => case Completed => case Dead =>
    }
    assert rows.Keys == p + r + c + d;
    assert |p + r + c + d| == |p| + |r| + |c| + |d|;
  }
}
