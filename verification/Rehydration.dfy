/**
 `rehydrate_pending_jobs` over the live history table and queue.

 The counter is seeded, the rows left RUNNING are failed, the pending ones are rebuilt or marked, and
 what was rebuilt is handed to the queue.

 What the queue page shows right after it is the waiting line, in the order workers will claim it.
 */
module Rehydration {
  import opened Jobs
  import opened History
  import opened HistoryStore
  import opened QueueStore
  import opened Recovery
  import Queue

  // ----- the rows while they are being marked -----

  /** Row `row` once the rows in `seen` have been tried. */
  function TriedRow(row: Row, settings: Settings, seen: seq<Row>): Row {
    if row.status.Running? || (row in seen && row.status.Pending? && Reconstruct(row, settings).None?)
    then row.(status := Failed) else row
  }

  function Tried(rows: seq<Row>, settings: Settings, seen: seq<Row>): (r: seq<Row>)
    ensures |r| == |rows|
  {
    seq(|rows|, i requires 0 <= i < |rows| => TriedRow(rows[i], settings, seen))
  }

  function StoppedRow(row: Row): Row { if row.status.Running? then row.(status := Failed) else row }

  function Stopped(rows: seq<Row>): (r: seq<Row>)
    ensures |r| == |rows|
  {
    seq(|rows|, i requires 0 <= i < |rows| => StoppedRow(rows[i]))
  }

  lemma {:induction false} StoppedKeepsPending(rows: seq<Row>)
    ensures ByStatus(Stopped(rows), Pending) == ByStatus(rows, Pending)
  {
    if rows != [] {
      var n := |rows| - 1;
      StoppedKeepsPending(rows[..n]);
      assert Stopped(rows)[..n] == Stopped(rows[..n]);
    }
  }

  lemma AllTried(rows: seq<Row>, settings: Settings)
    ensures Tried(rows, settings, ByStatus(rows, Pending)) == Marked(rows, settings)
  {
    ByStatusMembers(rows, Pending);
    forall i | 0 <= i < |rows|
      ensures TriedRow(rows[i], settings, ByStatus(rows, Pending)) == MarkedRow(rows[i], settings)
    {
      assert rows[i] in rows;
    }
  }

  /** Trying one more row changes that row only, and only when it cannot be rebuilt. */
  lemma TriedNext(rows: seq<Row>, settings: Settings, seen: seq<Row>, row: Row, at: nat)
    requires DistinctKeys(rows) && at < |rows| && rows[at] == row && row.status.Pending?
    ensures var before := Tried(rows, settings, seen);
            Tried(rows, settings, seen + [row])
            == if Reconstruct(row, settings).None? then before[at := row.(status := Failed)] else before
  {
    forall i | 0 <= i < |rows| && i != at
      ensures TriedRow(rows[i], settings, seen + [row]) == TriedRow(rows[i], settings, seen)
    {
      assert rows[i].key != rows[at].key;
    }
  }

  lemma TriedKeys(rows: seq<Row>, settings: Settings, seen: seq<Row>)
    requires DistinctKeys(rows)
    ensures DistinctKeys(Tried(rows, settings, seen))
  {
  }

  // ----- the loops -----

  method MaxPriorityOf(rows: seq<Row>) returns (most: int)
    requires rows != []
    ensures most == MaxPriority(rows) && forall r :: r in rows ==> r.priority <= most
    ensures exists r :: r in rows && r.priority == most
  {
    most := rows[0].priority;
    assert rows[..1] == [rows[0]] && rows[0] in rows;
    for i := 1 to |rows|
      invariant most == MaxPriority(rows[..i]) && exists r :: r in rows && r.priority == most
    {
      assert rows[..i + 1][..i] == rows[..i] && rows[i] in rows;
      if rows[i].priority > most { most := rows[i].priority; }
    }
    assert rows[..|rows|] == rows;
    MaxPriorityBounds(rows);
  }

  /** `_mark_unrehydratable` on the row at `at`. */
  method MarkUnrehydratable(history: JobHistory, at: nat)
    requires at < |history.rows|
    modifies history
    ensures history.rows == old(history.rows)[at := old(history.rows)[at].(status := Failed)]
  {
    history.rows := history.rows[at := history.rows[at].(status := Failed)];
  }

  method StopRunning(history: JobHistory)
    modifies history
    ensures history.rows == Stopped(old(history.rows))
    ensures |history.rows| == |old(history.rows)|
    ensures forall i :: 0 <= i < |history.rows| ==> var r := old(history.rows)[i];
              history.rows[i] == if r.status.Running? then r.(status := Failed) else r
  {
    var all := history.rows;
    for i := 0 to |all|
      invariant |history.rows| == |all| && (forall k :: 0 <= k < i ==> history.rows[k] == StoppedRow(all[k]))
      invariant forall k :: i <= k < |all| ==> history.rows[k] == all[k]
    {
      if all[i].status.Running? { MarkUnrehydratable(history, i); }
    }
  }

  method PendingRows(rows: seq<Row>) returns (pending: seq<Row>)
    ensures pending == ByStatus(rows, Pending)
    ensures forall r :: r in pending <==> r in rows && r.status.Pending?
    ensures DistinctKeys(rows) ==> PageOrder(rows, pending)
  {
    pending := [];
    assert rows[..0] == [];
    for i := 0 to |rows|
      invariant pending == ByStatus(rows[..i], Pending)
    {
      assert rows[..i + 1][..i] == rows[..i];
      if rows[i].status.Pending? { pending := InsertByPriority(pending, rows[i]); }
    }
    assert rows[..|rows|] == rows;
    ByStatusMembers(rows, Pending);
    if DistinctKeys(rows) { ByStatusSorts(rows, Pending); }
  }

  lemma RebuiltMeans(pending: seq<Row>, settings: Settings)
    requires forall r :: r in pending ==> r.status.Pending?
    ensures forall x :: x in Rebuilt(pending, settings) <==> CarriedOn(pending, settings, x)
  {
    RebuiltMembers(pending, settings);
    forall x ensures RebuiltFrom(pending, settings, x) <==> CarriedOn(pending, settings, x) {
      RebuiltPendingMeans(pending, settings, x);
    }
  }

  /** Rebuilds the pending rows in order, marking the ones that cannot be. */
  method RebuildRows(history: JobHistory, pending: seq<Row>, settings: Settings, ghost all: seq<Row>)
    returns (jobs: seq<(JobId, Job)>)
    requires DistinctKeys(all) && history.rows == Stopped(all) && pending == ByStatus(all, Pending)
    modifies history
    ensures history.rows == Marked(all, settings) && jobs == Rebuilt(pending, settings)
    ensures |history.rows| == |all|
            && forall i :: 0 <= i < |all| ==> LeftAs(all[i], settings, history.rows[i])
    ensures forall x :: x in jobs <==> CarriedOn(pending, settings, x)
  {
    jobs := [];
    ByStatusMembers(all, Pending);
    assert Stopped(all) == Tried(all, settings, []);
    assert pending[..0] == [];
    for i := 0 to |pending|
      invariant history.rows == Tried(all, settings, pending[..i])
      invariant jobs == Rebuilt(pending[..i], settings)
    {
      var row := pending[i];
      assert row in pending;
      assert pending[..i + 1] == pending[..i] + [row] && pending[..i + 1][..i] == pending[..i];
      TriedKeys(all, settings, pending[..i]);
      ghost var k :| 0 <= k < |all| && all[k] == row;
      assert Tried(all, settings, pending[..i])[k].key == row.key;
      FoundAt(history.rows, row.key, k);
      TriedNext(all, settings, pending[..i], row, k);
      var rebuilt := Reconstruct(row, settings);
      if rebuilt.None? {
        MarkUnrehydratable(history, IndexOf(history.rows, row.key));
      } else {
        jobs := jobs + [rebuilt.value];
      }
    }
    assert pending[..|pending|] == pending;
    AllTried(all, settings);
    MarkedMeans(all, settings);
    RebuiltMeans(pending, settings);
  }

  lemma BatchMeans(rows: seq<Row>, settings: Settings)
    requires DistinctKeys(rows)
    ensures forall x :: x in Batch(rows, settings) <==> CarriedOn(rows, settings, x)
    ensures SortedBatch(Batch(rows, settings))
  {
    BatchKeeps(rows, settings);
    forall x ensures RebuiltPending(rows, settings, x) <==> CarriedOn(rows, settings, x) {
      RebuiltPendingMeans(rows, settings, x);
    }
  }

  /** In a batch of distinct ids every job is the last of its id. */
  lemma BatchOnce(b: seq<(JobId, Job)>)
    requires SortedBatch(b)
    ensures forall i :: 0 <= i < |b| ==> IsLast(b, i) && Given(b, b[i].0)
    ensures forall x :: x in b ==> exists i :: 0 <= i < |b| && b[i] == x
    ensures forall id :: Given(b, id) ==> exists x :: x in b && x.0 == id
  {
    forall id | Given(b, id) ensures exists x :: x in b && x.0 == id {
      var k :| 0 <= k < |b| && b[k].0 == id;
      assert b[k] in b;
    }
  }

  /** Every job of the batch is live as it was rebuilt, and every other job is as it was. */
  ghost predicate HandsOver(before: map<JobId, Job>, b: seq<(JobId, Job)>, after: map<JobId, Job>, order: seq<JobId>) {
    && (forall x :: x in b ==> x.0 in after && x.0 in order && after[x.0] == x.1)
    && (forall id :: id in before && (forall x :: x in b ==> x.0 != id) ==> id in after && after[id] == before[id])
  }

  lemma BatchGiven(q: Queue.Queue, b: seq<(JobId, Job)>)
    requires SortedBatch(b)
    ensures HandsOver(q.jobs, b, Queue.Rehydrate(q, b).jobs, Queue.Rehydrate(q, b).order)
  {
    RehydrateGives(q, b);
    BatchOnce(b);
  }

  /** The counter passes every persisted priority, and no further than that. */
  ghost predicate Passes(rows: seq<Row>, before: int, after: int) {
    && after >= before && (forall r :: r in rows ==> r.priority < after)
    && (after == before || exists r :: r in rows && after == r.priority + 1)
  }

  method SeedCounter(rows: seq<Row>, queue: JobQueue)
    requires queue.Valid()
    modifies queue`nextPriority
    ensures queue.Valid() && queue.State() == Seeded(old(queue.State()), rows)
    ensures Passes(rows, old(queue.nextPriority), queue.nextPriority)
  {
    if |rows| > 0 {
      var most := MaxPriorityOf(rows);
      queue.SeedNextPriority(most + 1);
    }
  }

  /** Startup: seed the counter, fail the orphans, rebuild what was waiting, hand it to the queue. */
  method RehydratePendingJobs(history: JobHistory, queue: JobQueue, settings: Settings)
    returns (jobs: seq<(JobId, Job)>)
    requires DistinctKeys(history.rows) && queue.Valid()
    modifies history, queue
    ensures history.rows == Marked(old(history.rows), settings)
    ensures jobs == Batch(old(history.rows), settings)
    ensures queue.State() == Queue.Rehydrate(Seeded(old(queue.State()), old(history.rows)), jobs)
    ensures old(queue.State()) == Queue.EMPTY ==> queue.State() == RecoveredQueue(old(history.rows), settings)
    ensures |history.rows| == |old(history.rows)|
            && forall i :: 0 <= i < |history.rows| ==> LeftAs(old(history.rows)[i], settings, history.rows[i])
    ensures forall x :: x in jobs <==> CarriedOn(old(history.rows), settings, x)
    ensures forall i, j :: 0 <= i < j < |jobs| ==> jobs[i].1.priority <= jobs[j].1.priority
    ensures Passes(old(history.rows), old(queue.nextPriority), queue.nextPriority)
    ensures HandsOver(old(queue.jobs), jobs, queue.jobs, queue.order)
  {
    ghost var all := history.rows;
    SeedCounter(history.rows, queue);
    StopRunning(history);
    StoppedKeepsPending(all);
    var pending := PendingRows(history.rows);
    jobs := RebuildRows(history, pending, settings, all);
    BatchMeans(all, settings);
    BatchGiven(queue.State(), jobs);
    if pending == [] { return; }
    queue.Rehydrate(jobs);
  }

  // ----- the queue page right after a restart -----

  /** The rows that can be rebuilt, in order. */
  function Rebuildable(rows: seq<Row>, settings: Settings): seq<Row> {
    if rows == [] then []
    else if Reconstruct(rows[0], settings).Some? then [rows[0]] + Rebuildable(rows[1..], settings)
    else Rebuildable(rows[1..], settings)
  }

  lemma {:induction false} RebuildableSnoc(rows: seq<Row>, last: Row, settings: Settings)
    ensures Rebuildable(rows + [last], settings)
         == Rebuildable(rows, settings) + if Reconstruct(last, settings).Some? then [last] else []
  {
    if rows == [] {
      assert rows + [last] == [last];
    } else {
      assert (rows + [last])[1..] == rows[1..] + [last];
      RebuildableSnoc(rows[1..], last, settings);
    }
  }

  lemma {:induction false} RebuildableMembers(rows: seq<Row>, settings: Settings)
    ensures forall r :: r in Rebuildable(rows, settings) <==> r in rows && Reconstruct(r, settings).Some?
  {
    if rows != [] {
      assert rows == [rows[0]] + rows[1..];
      RebuildableMembers(rows[1..], settings);
    }
  }

  lemma {:induction false} InsertRebuildable(sorted: seq<Row>, row: Row, settings: Settings)
    requires ByPriority(sorted)
    ensures Rebuildable(InsertByPriority(sorted, row), settings)
         == if Reconstruct(row, settings).Some? then InsertByPriority(Rebuildable(sorted, settings), row)
             else Rebuildable(sorted, settings)
  {
    if sorted != [] {
      if sorted[0].priority > row.priority {
        var rest := Rebuildable(sorted, settings);
        RebuildableMembers(sorted, settings);
        if rest != [] {
          assert rest[0] in sorted;
          var k :| 0 <= k < |sorted| && sorted[k] == rest[0];
        }
      } else {
        assert forall i :: 0 <= i < |sorted[1..]| ==> sorted[1..][i] == sorted[i + 1];
        InsertRebuildable(sorted[1..], row, settings);
      }
    }
  }

  /** After marking, what is still pending is what could be rebuilt. */
  lemma {:induction false} MarkedPending(rows: seq<Row>, settings: Settings)
    requires DistinctKeys(rows)
    ensures ByStatus(Marked(rows, settings), Pending) == Rebuildable(ByStatus(rows, Pending), settings)
  {
    if rows != [] {
      var n := |rows| - 1;
      MarkedPending(rows[..n], settings);
      assert Marked(rows, settings)[..n] == Marked(rows[..n], settings);
      ByStatusSorts(rows[..n], Pending);
      if rows[n].status.Pending? { InsertRebuildable(ByStatus(rows[..n], Pending), rows[n], settings); }
    }
  }

  lemma {:induction false} NoneMarkedRunning(rows: seq<Row>, settings: Settings)
    ensures ByStatus(Marked(rows, settings), Running) == []
  {
    if rows != [] {
      var n := |rows| - 1;
      NoneMarkedRunning(rows[..n], settings);
      assert Marked(rows, settings)[..n] == Marked(rows[..n], settings);
    }
  }

  lemma {:induction false} RebuiltKeys(rows: seq<Row>, settings: Settings)
    requires forall r :: r in rows ==> r.status.Pending?
    ensures var kept, b := Rebuildable(rows, settings), Rebuilt(rows, settings);
            |kept| == |b| && forall i :: 0 <= i < |b| ==> kept[i] == RowOf(b[i].0, b[i].1)
  {
    if rows != [] {
      var n := |rows| - 1;
      assert rows == rows[..n] + [rows[n]];
      RebuiltKeys(rows[..n], settings);
      RebuildableSnoc(rows[..n], rows[n], settings);
    }
  }

  /** Right after a restart the queue page lists exactly the waiting line, in the order workers will claim it. */
  lemma RestartListsTheLine(rows: seq<Row>, settings: Settings)
    requires DistinctKeys(rows)
    ensures var page, q := QueueJobs(Marked(rows, settings)), RecoveredQueue(rows, settings);
            && Queue.Valid(q) && |page| == |Queue.Waiting(q)|
            && forall i :: 0 <= i < |page| ==> page[i] == RowOf(Queue.Waiting(q)[i], q.jobs[Queue.Waiting(q)[i]])
  {
    NoneMarkedRunning(rows, settings);
    MarkedPending(rows, settings);
    ByStatusMembers(rows, Pending);
    RebuiltKeys(ByStatus(rows, Pending), settings);
    RecoveredHolds(rows, settings);
  }
}
