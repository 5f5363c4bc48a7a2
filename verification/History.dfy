/** The persisted job history: one row per job, upserted at every lifecycle stage. */
module History {
  import opened Jobs

  /** The job_id column is text; only text that parses as a UUID names a job. */
  datatype RowKey = Uuid(id: JobId) | Malformed(text: string)

  datatype Row = Row(key: RowKey, path: Path, kind: Kind, priority: int, status: Status)

  ghost predicate DistinctKeys(rows: seq<Row>) {
    forall i, j :: 0 <= i < j < |rows| ==> rows[i].key != rows[j].key
  }

  function RowOf(id: JobId, job: Job): Row {
    Row(Uuid(id), job.path, job.kind, job.priority, job.status)
  }

  /** The unique row with this key, as an index; |rows| when there is none. */
  function IndexOf(rows: seq<Row>, key: RowKey): (i: nat)
    ensures i <= |rows| && (i < |rows| ==> rows[i].key == key)
    ensures forall j :: 0 <= j < i ==> rows[j].key != key
  {
    if rows == [] then 0
    else if rows[0].key == key then 0
    else 1 + IndexOf(rows[1..], key)
  }

  /** `record_job_history`: update the job's row in place, or append one. */
  function Record(rows: seq<Row>, id: JobId, job: Job): seq<Row> {
    var i := IndexOf(rows, Uuid(id));
    if i == |rows| then rows + [RowOf(id, job)] else rows[i := RowOf(id, job)]
  }

  /** `delete_job_history`. */
  function Delete(rows: seq<Row>, id: JobId): (seq<Row>, bool) {
    var i := IndexOf(rows, Uuid(id));
    if i == |rows| then (rows, false) else (rows[..i] + rows[i + 1..], true)
  }

  lemma RecordMembers(rows: seq<Row>, id: JobId, job: Job)
    requires DistinctKeys(rows)
    ensures DistinctKeys(Record(rows, id, job))
    ensures forall r :: r in Record(rows, id, job) <==>
              r == Row(Uuid(id), job.path, job.kind, job.priority, job.status) || (r in rows && r.key != Uuid(id))
  {
    var i := IndexOf(rows, Uuid(id));
    var rows' := Record(rows, id, job);
    if i < |rows| {
      assert rows'[i] == RowOf(id, job);
      forall r | r in rows && r.key != Uuid(id) ensures r in rows' {
        var j :| 0 <= j < |rows| && rows[j] == r;
        assert rows'[j] == r;
      }
    }
  }

  lemma DeleteMembers(rows: seq<Row>, id: JobId)
    requires DistinctKeys(rows)
    ensures DistinctKeys(Delete(rows, id).0)
    ensures forall r :: r in Delete(rows, id).0 <==> r in rows && r.key != Uuid(id)
    ensures Delete(rows, id).1 <==> exists r :: r in rows && r.key == Uuid(id)
  {
    var i := IndexOf(rows, Uuid(id));
    if i < |rows| {
      var rows' := rows[..i] + rows[i + 1..];
      assert rows[i] in rows;
      forall r | r in rows && r.key != Uuid(id) ensures r in rows' {
        var j :| 0 <= j < |rows| && rows[j] == r;
        assert if j < i then rows'[j] == r else rows'[j - 1] == r;
      }
    }
  }

  // ----- the queue page -----

  function InsertByPriority(sorted: seq<Row>, row: Row): seq<Row> {
    if sorted == [] then [row]
    else if sorted[0].priority > row.priority then [row] + sorted
    else [sorted[0]] + InsertByPriority(sorted[1..], row)
  }

  /** The rows with this status by priority; ties keep row order. */
  function ByStatus(rows: seq<Row>, st: Status): seq<Row> {
    if rows == [] then []
    else
      var n := |rows| - 1;
      var rest := ByStatus(rows[..n], st);
      if rows[n].status == st then InsertByPriority(rest, rows[n]) else rest
  }

  /** `list_queue_jobs`: running rows first, each group by priority, then row id. */
  function QueueJobs(rows: seq<Row>): seq<Row> { ByStatus(rows, Running) + ByStatus(rows, Pending) }

  lemma {:induction false} InsertByPriorityMembers(sorted: seq<Row>, row: Row)
    ensures forall r :: r in InsertByPriority(sorted, row) <==> r in sorted || r == row
  {
    if sorted != [] {
      assert sorted == [sorted[0]] + sorted[1..];
      InsertByPriorityMembers(sorted[1..], row);
    }
  }

  ghost predicate ByPriority(rows: seq<Row>) {
    forall i, j :: 0 <= i < j < |rows| ==> rows[i].priority <= rows[j].priority
  }

  /** `a` goes before `b` on the page: lower priority, or the same and an earlier row. */
  predicate RowBefore(rows: seq<Row>, a: Row, b: Row) {
    a.priority < b.priority || (a.priority == b.priority && IndexOf(rows, a.key) < IndexOf(rows, b.key))
  }

  /** Rows of `rows` in page order; in particular no row twice. */
  ghost predicate PageOrder(rows: seq<Row>, page: seq<Row>) {
    forall i, j :: 0 <= i < j < |page| ==> RowBefore(rows, page[i], page[j]) && page[i].key != page[j].key
  }

  lemma {:induction false} InsertByPriorityKeeps(rows: seq<Row>, sorted: seq<Row>, row: Row)
    requires PageOrder(rows, sorted) && forall r :: r in sorted ==> IndexOf(rows, r.key) < IndexOf(rows, row.key)
    ensures PageOrder(rows, InsertByPriority(sorted, row))
  {
    if sorted != [] && sorted[0].priority <= row.priority {
      var rest := InsertByPriority(sorted[1..], row);
      InsertByPriorityKeeps(rows, sorted[1..], row);
      InsertByPriorityMembers(sorted[1..], row);
      assert sorted[0] in sorted;
      forall j | 0 <= j < |rest| ensures RowBefore(rows, sorted[0], rest[j]) && sorted[0].key != rest[j].key {
        assert rest[j] in rest;
        if rest[j] in sorted[1..] {
          var k :| 0 <= k < |sorted[1..]| && sorted[1..][k] == rest[j];
          assert sorted[k + 1] == rest[j];
        }
      }
    } else {
      assert forall j :: 0 <= j < |sorted| ==> sorted[j] in sorted;
    }
  }

  lemma {:induction false} IndexOfPrefix(a: seq<Row>, b: seq<Row>, key: RowKey)
    ensures IndexOf(a + b, key) == if IndexOf(a, key) < |a| then IndexOf(a, key) else |a| + IndexOf(b, key)
  {
    if a == [] {
      assert a + b == b;
    } else {
      assert (a + b)[1..] == a[1..] + b;
      IndexOfPrefix(a[1..], b, key);
    }
  }

  lemma FoundAt(rows: seq<Row>, key: RowKey, i: nat)
    requires DistinctKeys(rows) && i < |rows| && rows[i].key == key
    ensures IndexOf(rows, key) == i
  {
  }

  lemma AbsentKey(rows: seq<Row>, key: RowKey)
    requires forall j :: 0 <= j < |rows| ==> rows[j].key != key
    ensures IndexOf(rows, key) == |rows|
  {
  }

  /** Indices of the first rows do not depend on the row after them, which comes last. */
  lemma IndexOfSnoc(rows: seq<Row>, last: Row)
    requires DistinctKeys(rows + [last])
    ensures IndexOf(rows + [last], last.key) == |rows|
    ensures forall r :: r in rows ==> IndexOf(rows + [last], r.key) == IndexOf(rows, r.key) < |rows|
  {
    IndexOfPrefix(rows, [last], last.key);
    var all := rows + [last];
    forall j | 0 <= j < |rows| ensures rows[j].key != last.key {
      assert all[j].key != all[|rows|].key;
    }
    AbsentKey(rows, last.key);
    forall r | r in rows ensures IndexOf(rows + [last], r.key) == IndexOf(rows, r.key) < |rows| {
      IndexOfPrefix(rows, [last], r.key);
      var k :| 0 <= k < |rows| && rows[k] == r;
      assert IndexOf(rows, r.key) <= k;
    }
  }

  lemma {:induction false} ByStatusMembers(rows: seq<Row>, st: Status)
    ensures forall r :: r in ByStatus(rows, st) <==> r in rows && r.status == st
  {
    if rows != [] {
      var n := |rows| - 1;
      assert rows == rows[..n] + [rows[n]];
      ByStatusMembers(rows[..n], st);
      if rows[n].status == st { InsertByPriorityMembers(ByStatus(rows[..n], st), rows[n]); }
    }
  }

  lemma PageOrderSnoc(rows: seq<Row>, last: Row, page: seq<Row>)
    requires DistinctKeys(rows + [last]) && PageOrder(rows, page) && forall r :: r in page ==> r in rows
    ensures PageOrder(rows + [last], page)
    ensures forall r :: r in page ==> IndexOf(rows + [last], r.key) < IndexOf(rows + [last], last.key)
  {
    IndexOfSnoc(rows, last);
    forall i, j | 0 <= i < j < |page| ensures RowBefore(rows + [last], page[i], page[j]) {
      assert page[i] in page && page[j] in page && RowBefore(rows, page[i], page[j]);
    }
  }

  lemma {:induction false} ByStatusSorts(rows: seq<Row>, st: Status)
    requires DistinctKeys(rows)
    ensures PageOrder(rows, ByStatus(rows, st)) && ByPriority(ByStatus(rows, st)) && DistinctKeys(ByStatus(rows, st))
    ensures forall r :: r in ByStatus(rows, st) <==> r in rows && r.status == st
  {
    ByStatusMembers(rows, st);
    if rows != [] {
      var n := |rows| - 1;
      var rest := ByStatus(rows[..n], st);
      assert rows == rows[..n] + [rows[n]];
      ByStatusSorts(rows[..n], st);
      PageOrderSnoc(rows[..n], rows[n], rest);
      if rows[n].status == st { InsertByPriorityKeeps(rows, rest, rows[n]); }
    }
    var page := ByStatus(rows, st);
    assert forall i, j :: 0 <= i < j < |page| ==> RowBefore(rows, page[i], page[j]);
  }

  /** The page lists every active row once, running ones first, each group by priority, then row. */
  lemma QueueJobsListsActive(rows: seq<Row>)
    requires DistinctKeys(rows)
    ensures var page := QueueJobs(rows);
            && DistinctKeys(page)
            && (forall r :: r in page <==> r in rows && (r.status.Running? || r.status.Pending?))
            && forall i, j :: 0 <= i < j < |page| ==>
                 || (page[i].status.Running? && page[j].status.Pending?)
                 || (page[i].status == page[j].status && page[i].priority < page[j].priority)
                 || (page[i].status == page[j].status && page[i].priority == page[j].priority
                     && exists a, b :: 0 <= a < b < |rows| && rows[a] == page[i] && rows[b] == page[j])
  {
    var running, waiting := ByStatus(rows, Running), ByStatus(rows, Pending);
    ByStatusSorts(rows, Running);
    ByStatusSorts(rows, Pending);
    assert forall i :: 0 <= i < |running| ==> running[i] in running;
    assert forall i :: 0 <= i < |waiting| ==> waiting[i] in waiting;
    forall i, j | 0 <= i < |running| && 0 <= j < |waiting| ensures running[i].key != waiting[j].key {
      KeyNames(rows, running[i], waiting[j]);
    }
    var page := QueueJobs(rows);
    forall i, j | 0 <= i < j < |page| && page[i].status == page[j].status && page[i].priority == page[j].priority
      ensures exists a, b :: 0 <= a < b < |rows| && rows[a] == page[i] && rows[b] == page[j]
    {
      assert page[i] in page && page[j] in page && RowBefore(rows, page[i], page[j]);
      RowAt(rows, page[i]);
      RowAt(rows, page[j]);
    }
  }

  lemma RowAt(rows: seq<Row>, r: Row)
    requires DistinctKeys(rows) && r in rows
    ensures IndexOf(rows, r.key) < |rows| && rows[IndexOf(rows, r.key)] == r
  {
    var k :| 0 <= k < |rows| && rows[k] == r;
    FoundAt(rows, r.key, k);
  }

  lemma KeyNames(rows: seq<Row>, a: Row, b: Row)
    requires DistinctKeys(rows) && a in rows && b in rows && a != b
    ensures a.key != b.key
  {
  }
}
