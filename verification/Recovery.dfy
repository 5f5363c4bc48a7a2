/**
 What a restart makes of the persisted history.

 Rows that cannot be carried on are marked, the others are rebuilt as jobs of their kind under
 today's settings, and the counter is seeded above every priority.

 As functions over the rows: the table and queue that are written in place are in `Rehydration`.
 */
module Recovery {
  import opened Common
  import opened Audio
  import opened Jobs
  import opened History
  import Queue

  /** The settings row as it reads at startup. */
  datatype Settings = Settings(downmix: DownmixSettings, preference: Option<Preference>)

  const NO_TARGETS := DownmixSettings({}, None, "aac", None, "ac3", Some(448))

  /** `_reconstruct_job`: settings come from the current row, never from the stored summary. */
  function Reconstruct(row: Row, settings: Settings): Option<(JobId, Job)> {
    match row.key
    case Malformed(_) => None
    case Uuid(id) =>
      match row.kind
      case SetDefaultAudio =>
        if settings.preference.None? then None
        else Some((id, Job(row.path, SetDefaultAudio, NO_TARGETS, settings.preference, row.priority, Pending, false)))
      case Downmix =>
        Some((id, Job(row.path, Downmix, settings.downmix, None, row.priority, Pending, false)))
  }

  function MaxPriority(rows: seq<Row>): int
    requires rows != []
  {
    if |rows| == 1 then rows[0].priority
    else
      var m := MaxPriority(rows[..|rows| - 1]);
      if rows[|rows| - 1].priority > m then rows[|rows| - 1].priority else m
  }

  /** A row a restart cannot carry over: it was running, or it cannot be rebuilt. */
  predicate Unrehydratable(row: Row, settings: Settings) {
    row.status.Running? || (row.status.Pending? && Reconstruct(row, settings).None?)
  }

  function MarkedRow(row: Row, settings: Settings): Row {
    if Unrehydratable(row, settings) then row.(status := Failed) else row
  }

  function Marked(rows: seq<Row>, settings: Settings): (r: seq<Row>)
    ensures |r| == |rows|
  {
    seq(|rows|, i requires 0 <= i < |rows| => MarkedRow(rows[i], settings))
  }

  function Rebuilt(rows: seq<Row>, settings: Settings): seq<(JobId, Job)> {
    if rows == [] then []
    else
      var rest := Rebuilt(rows[..|rows| - 1], settings);
      var r := Reconstruct(rows[|rows| - 1], settings);
      if r.None? then rest else rest + [r.value]
  }

  function Batch(rows: seq<Row>, settings: Settings): seq<(JobId, Job)> {
    Rebuilt(ByStatus(rows, Pending), settings)
  }

  function Seeded(q: Queue.Queue, rows: seq<Row>): Queue.Queue {
    if rows == [] then q else Queue.SeedNextPriority(q, MaxPriority(rows) + 1)
  }

  /** The queue a fresh process holds after rehydration, before any thread runs. */
  function RecoveredQueue(rows: seq<Row>, settings: Settings): Queue.Queue {
    Queue.Rehydrate(Seeded(Queue.EMPTY, rows), Batch(rows, settings))
  }

  // ----- members of the intermediate lists -----

  lemma {:induction false} MaxPriorityBounds(rows: seq<Row>)
    requires rows != []
    ensures forall r :: r in rows ==> r.priority <= MaxPriority(rows)
  {
    var n := |rows| - 1;
    assert rows == rows[..n] + [rows[n]];
    if n > 0 { MaxPriorityBounds(rows[..n]); }
  }

  ghost predicate SortedBatch(b: seq<(JobId, Job)>) {
    && (forall i, j :: 0 <= i < j < |b| ==> b[i].0 != b[j].0 && b[i].1.priority <= b[j].1.priority)
    && (forall i :: 0 <= i < |b| ==> b[i].1.status.Pending?)
  }

  /** `x` is what some row of `rows` is rebuilt into. */
  ghost predicate RebuiltFrom(rows: seq<Row>, settings: Settings, x: (JobId, Job)) {
    exists r :: r in rows && Reconstruct(r, settings) == Some(x)
  }

  lemma {:induction false} RebuiltMembers(rows: seq<Row>, settings: Settings)
    ensures forall x :: x in Rebuilt(rows, settings) <==> RebuiltFrom(rows, settings, x)
  {
    if rows != [] {
      var n := |rows| - 1;
      assert rows == rows[..n] + [rows[n]];
      RebuiltMembers(rows[..n], settings);
      var last := Reconstruct(rows[n], settings);
      forall x ensures RebuiltFrom(rows, settings, x) <==> RebuiltFrom(rows[..n], settings, x) || last == Some(x) {
        if RebuiltFrom(rows[..n], settings, x) {
          var r :| r in rows[..n] && Reconstruct(r, settings) == Some(x);
          assert r in rows;
        }
        if last == Some(x) { assert rows[n] in rows; }
      }
    }
  }

  lemma {:induction false} RebuiltSorted(rows: seq<Row>, settings: Settings)
    requires DistinctKeys(rows) && ByPriority(rows)
    ensures SortedBatch(Rebuilt(rows, settings))
  {
    if rows != [] {
      var n := |rows| - 1;
      var rest := Rebuilt(rows[..n], settings);
      RebuiltSorted(rows[..n], settings);
      RebuiltMembers(rows[..n], settings);
      var last := Reconstruct(rows[n], settings);
      if last.Some? {
        forall i | 0 <= i < |rest| ensures rest[i].0 != last.value.0 && rest[i].1.priority <= last.value.1.priority {
          assert rest[i] in rest;
          var r :| r in rows[..n] && Reconstruct(r, settings) == Some(rest[i]);
          var k :| 0 <= k < n && rows[k] == r;
          assert rows[k].key != rows[n].key;
        }
      }
    }
  }

  /** `x` is what some pending row of `rows` is rebuilt into. */
  ghost predicate RebuiltPending(rows: seq<Row>, settings: Settings, x: (JobId, Job)) {
    exists r :: r in rows && r.status.Pending? && Reconstruct(r, settings) == Some(x)
  }

  lemma BatchKeeps(rows: seq<Row>, settings: Settings)
    requires DistinctKeys(rows)
    ensures SortedBatch(Batch(rows, settings))
    ensures forall x :: x in Batch(rows, settings) <==> RebuiltPending(rows, settings, x)
  {
    ByStatusSorts(rows, Pending);
    RebuiltSorted(ByStatus(rows, Pending), settings);
    RebuiltMembers(ByStatus(rows, Pending), settings);
  }

  function Ids(b: seq<(JobId, Job)>): (ids: seq<JobId>)
    ensures |ids| == |b|
  {
    seq(|b|, i requires 0 <= i < |b| => b[i].0)
  }

  /** Rehydrating fresh, distinct jobs appends them to the dict and changes no job already there. */
  lemma {:induction false} RehydrateShape(q: Queue.Queue, b: seq<(JobId, Job)>)
    requires forall i, j :: 0 <= i < j < |b| ==> b[i].0 != b[j].0
    requires forall i :: 0 <= i < |b| ==> b[i].0 !in q.jobs && b[i].0 !in q.order
    ensures var q' := Queue.Rehydrate(q, b);
            && q'.order == q.order + Ids(b)
            && q'.nextPriority == q.nextPriority && q'.active == q.active && q'.shutdown == q.shutdown
            && (forall x :: x in q'.jobs <==> x in q.jobs || x in Ids(b))
            && (forall x :: x in q.jobs ==> q'.jobs[x] == q.jobs[x])
            && (forall i :: 0 <= i < |b| ==> b[i].0 in q'.jobs && q'.jobs[b[i].0] == b[i].1)
    decreases |b|
  {
    if b != [] {
      var (id, job) := b[0];
      var q1 := q.(jobs := q.jobs[id := job], order := q.order + [id]);
      assert forall i :: 0 <= i < |b[1..]| ==> b[1..][i] == b[i + 1];
      RehydrateShape(q1, b[1..]);
      assert Ids(b) == [id] + Ids(b[1..]);
      assert forall i :: 1 <= i < |b| ==> b[i] == b[1..][i - 1];
    }
  }

  /** A batch can follow the queue: fresh ids, priorities between the line's and the counter. */
  ghost predicate Follows(q: Queue.Queue, b: seq<(JobId, Job)>) {
    && Queue.Valid(q) && SortedBatch(b)
    && (forall i :: 0 <= i < |b| ==> b[i].0 !in q.jobs && b[i].1.priority < q.nextPriority)
    && (forall i, x :: 0 <= i < |b| && x in Queue.Waiting(q) ==> q.jobs[x].priority <= b[i].1.priority)
  }

  function AfterFirst(q: Queue.Queue, b: seq<(JobId, Job)>): Queue.Queue
    requires b != []
  {
    q.(jobs := q.jobs[b[0].0 := b[0].1], order := q.order + [b[0].0])
  }

  lemma TailFollowsHead(b: seq<(JobId, Job)>)
    requires SortedBatch(b) && b != []
    ensures SortedBatch(b[1..])
    ensures forall i :: 0 <= i < |b[1..]| ==>
              b[1..][i] == b[i + 1] && b[1..][i].0 != b[0].0 && b[0].1.priority <= b[1..][i].1.priority
  {
    assert forall i :: 0 <= i < |b[1..]| ==> b[1..][i] == b[i + 1];
  }

  lemma FollowsNext(q: Queue.Queue, b: seq<(JobId, Job)>)
    requires Follows(q, b) && b != []
    ensures Follows(AfterFirst(q, b), b[1..]) && Queue.Waiting(AfterFirst(q, b)) == Queue.Waiting(q) + [b[0].0]
  {
    var q1, rest := AfterFirst(q, b), b[1..];
    RehydrateOne(q, b[0].0, b[0].1);
    TailFollowsHead(b);
    forall i, x | 0 <= i < |rest| && x in Queue.Waiting(q1) ensures q1.jobs[x].priority <= rest[i].1.priority {
      assert x in Queue.Waiting(q) || x == b[0].0;
    }
  }

  lemma RehydrateUnfolds(q: Queue.Queue, b: seq<(JobId, Job)>)
    requires b != [] && b[0].0 !in q.order
    ensures Queue.Rehydrate(q, b) == Queue.Rehydrate(AfterFirst(q, b), b[1..])
  {
  }

  /** Rehydrating a sorted batch puts its jobs in line in batch order. */
  lemma {:induction false} RehydrateLine(q: Queue.Queue, b: seq<(JobId, Job)>)
    requires Follows(q, b)
    ensures Queue.Valid(Queue.Rehydrate(q, b))
    ensures Queue.Waiting(Queue.Rehydrate(q, b)) == Queue.Waiting(q) + Ids(b)
    decreases |b|
  {
    if b != [] {
      var q1, rest := AfterFirst(q, b), b[1..];
      FollowsNext(q, b);
      RehydrateUnfolds(q, b);
      RehydrateLine(q1, rest);
      IdsSplit(Queue.Waiting(q), b);
    } else {
      assert Queue.Waiting(q) + [] == Queue.Waiting(q);
    }
  }

  lemma IdsSplit(line: seq<JobId>, b: seq<(JobId, Job)>)
    requires b != []
    ensures line + Ids(b) == (line + [b[0].0]) + Ids(b[1..])
  {
    assert Ids(b) == [b[0].0] + Ids(b[1..]);
  }

  lemma RehydrateOne(q: Queue.Queue, id: JobId, job: Job)
    requires Queue.Valid(q) && id !in q.jobs && job.status.Pending? && job.priority < q.nextPriority
    requires forall x :: x in Queue.Waiting(q) ==> q.jobs[x].priority <= job.priority
    ensures var q1 := q.(jobs := q.jobs[id := job], order := q.order + [id]);
            Queue.Valid(q1) && Queue.Waiting(q1) == Queue.Waiting(q) + [id]
  {
    var q1 := q.(jobs := q.jobs[id := job], order := q.order + [id]);
    assert q1.order[..|q.order|] == q.order;
    Queue.LineFrame(q.jobs, q1.jobs, q.order);
    Queue.InsertLast(q1.jobs, Queue.Waiting(q), id);
  }

  // ----- main results -----

  lemma BatchBounded(rows: seq<Row>, settings: Settings)
    requires DistinctKeys(rows)
    ensures SortedBatch(Batch(rows, settings))
    ensures forall i :: 0 <= i < |Batch(rows, settings)|
              ==> Batch(rows, settings)[i].1.priority < Seeded(Queue.EMPTY, rows).nextPriority
  {
    var b := Batch(rows, settings);
    BatchKeeps(rows, settings);
    if rows != [] { MaxPriorityBounds(rows); }
    forall i | 0 <= i < |b| ensures b[i].1.priority < Seeded(Queue.EMPTY, rows).nextPriority {
      assert b[i] in b;
      var r :| r in rows && r.status.Pending? && Reconstruct(r, settings) == Some(b[i]);
    }
  }

  ghost predicate Holds(q: Queue.Queue, b: seq<(JobId, Job)>) {
    && q.order == Ids(b) && q.active == 0 && !q.shutdown
    && (forall x :: x in q.jobs <==> x in Ids(b))
    && (forall i :: 0 <= i < |b| ==> b[i].0 in q.jobs && q.jobs[b[i].0] == b[i].1)
  }

  lemma RehydrateFresh(q0: Queue.Queue, b: seq<(JobId, Job)>)
    requires q0.jobs == map[] && q0.order == [] && q0.active == 0 && !q0.shutdown && SortedBatch(b)
    requires forall i :: 0 <= i < |b| ==> b[i].1.priority < q0.nextPriority
    ensures Holds(Queue.Rehydrate(q0, b), b) && Queue.Rehydrate(q0, b).nextPriority == q0.nextPriority
    ensures Queue.Valid(Queue.Rehydrate(q0, b))
    ensures Queue.Waiting(Queue.Rehydrate(q0, b)) == Ids(b)
  {
    RehydrateShape(q0, b);
    RehydrateLine(q0, b);
    assert [] + Ids(b) == Ids(b);
  }

  lemma RecoveredHolds(rows: seq<Row>, settings: Settings)
    requires DistinctKeys(rows)
    ensures Holds(RecoveredQueue(rows, settings), Batch(rows, settings))
    ensures rows != [] ==> RecoveredQueue(rows, settings).nextPriority > MaxPriority(rows)
    ensures Queue.Valid(RecoveredQueue(rows, settings))
    ensures Queue.Waiting(RecoveredQueue(rows, settings)) == Ids(Batch(rows, settings))
  {
    BatchBounded(rows, settings);
    RehydrateFresh(Seeded(Queue.EMPTY, rows), Batch(rows, settings));
  }

  /** A restart claims the surviving jobs in persisted (priority, row) order. */
  lemma RestartKeepsOrder(rows: seq<Row>, settings: Settings)
    requires DistinctKeys(rows)
    ensures Queue.Valid(RecoveredQueue(rows, settings))
    ensures Queue.Waiting(RecoveredQueue(rows, settings)) == Ids(Batch(rows, settings))
    ensures SortedBatch(Batch(rows, settings))
  {
    BatchBounded(rows, settings);
    RecoveredHolds(rows, settings);
  }

  /** The live job that carries row `r` on. */
  ghost predicate CarriedBy(r: Row, q: Queue.Queue) {
    r.key.Uuid? && r.key.id in q.order && r.key.id in q.jobs && RowOf(r.key.id, q.jobs[r.key.id]) == r
  }

  lemma MarkedRowAt(rows: seq<Row>, settings: Settings, r: Row)
    requires r in Marked(rows, settings)
    ensures exists r0 :: r0 in rows && MarkedRow(r0, settings) == r
  {
    var k :| 0 <= k < |rows| && Marked(rows, settings)[k] == r;
    assert rows[k] in rows;
  }

  lemma MarkedKeepsRow(rows: seq<Row>, settings: Settings, r: Row)
    requires r in rows && !Unrehydratable(r, settings)
    ensures r in Marked(rows, settings)
  {
    var k :| 0 <= k < |rows| && rows[k] == r;
    assert Marked(rows, settings)[k] == r;
  }

  lemma PendingRowCarried(rows: seq<Row>, settings: Settings, q: Queue.Queue, b: seq<(JobId, Job)>, r: Row)
    requires Holds(q, b) && forall x :: x in b <==> RebuiltPending(rows, settings, x)
    requires r in Marked(rows, settings) && r.status.Pending?
    ensures CarriedBy(r, q)
  {
    MarkedRowAt(rows, settings, r);
    var x := Reconstruct(r, settings).value;
    assert RebuiltPending(rows, settings, x);
    var i :| 0 <= i < |b| && b[i] == x;
    assert Ids(b)[i] == r.key.id;
  }

  lemma LiveJobHasRow(rows: seq<Row>, settings: Settings, q: Queue.Queue, b: seq<(JobId, Job)>, id: JobId)
    requires Holds(q, b) && forall x :: x in b <==> RebuiltPending(rows, settings, x)
    requires id in q.jobs
    ensures id in q.order && q.jobs[id].status.Pending?
    ensures RowOf(id, q.jobs[id]) in rows && RowOf(id, q.jobs[id]) in Marked(rows, settings)
  {
    var i :| 0 <= i < |b| && Ids(b)[i] == id;
    assert b[i] in b;
    var r :| r in rows && r.status.Pending? && Reconstruct(r, settings) == Some(b[i]);
    MarkedKeepsRow(rows, settings, r);
  }

  // ----- in terms of the rows before the restart -----

  /** A row the restart carries on: pending, under a readable job id, and its preference, if it needs one, still set. */
  ghost predicate LivesOn(r: Row, settings: Settings) {
    r.status.Pending? && r.key.Uuid? && (r.kind.Downmix? || settings.preference.Some?)
  }

  /** The job a row is carried on as: the row's file, kind and priority, and today's settings for that kind. */
  ghost predicate JobFor(r: Row, job: Job, settings: Settings) {
    && job.path == r.path && job.kind == r.kind && job.priority == r.priority
    && job.status.Pending? && !job.cancellable
    && match r.kind
       case Downmix => job.settings == settings.downmix && job.preference == None
       case SetDefaultAudio => job.preference == settings.preference && job.settings == NO_TARGETS
                               && job.settings.enabled == {}
  }

  /** The row as the restart leaves it. */
  ghost predicate LeftAs(r: Row, settings: Settings, r': Row) {
    if r.status.Running? || (r.status.Pending? && !LivesOn(r, settings)) then r' == r.(status := Failed) else r' == r
  }

  lemma ReconstructMeans(r: Row, settings: Settings)
    requires r.status.Pending?
    ensures Reconstruct(r, settings).Some? <==> LivesOn(r, settings)
    ensures Reconstruct(r, settings).Some? ==>
              var (id, job) := Reconstruct(r, settings).value; r.key == Uuid(id) && JobFor(r, job, settings)
    ensures forall x: (JobId, Job) :: LivesOn(r, settings) && r.key == Uuid(x.0) && JobFor(r, x.1, settings) ==>
              Reconstruct(r, settings) == Some(x)
  {
  }

  lemma MarkedMeans(rows: seq<Row>, settings: Settings)
    ensures forall i :: 0 <= i < |rows| ==> LeftAs(rows[i], settings, Marked(rows, settings)[i])
  {
    forall i | 0 <= i < |rows| ensures LeftAs(rows[i], settings, Marked(rows, settings)[i]) {
      if rows[i].status.Pending? { ReconstructMeans(rows[i], settings); }
    }
  }

  /** `x` is the job some row of `rows` is carried on as. */
  ghost predicate CarriedOn(rows: seq<Row>, settings: Settings, x: (JobId, Job)) {
    exists r :: r in rows && LivesOn(r, settings) && r.key == Uuid(x.0) && JobFor(r, x.1, settings)
  }

  lemma RebuiltPendingMeans(rows: seq<Row>, settings: Settings, x: (JobId, Job))
    ensures RebuiltPending(rows, settings, x) <==> CarriedOn(rows, settings, x)
  {
    if r :| r in rows && r.status.Pending? && Reconstruct(r, settings) == Some(x) { ReconstructMeans(r, settings); }
    if r :| r in rows && LivesOn(r, settings) && r.key == Uuid(x.0) && JobFor(r, x.1, settings) {
      ReconstructMeans(r, settings);
    }
  }

  /**
   A pending row is carried on exactly when its job id reads and its preference, if it needs one, is
   set: then the row stays and one live job has its file, kind, priority and today's settings. The
   other pending rows and the running ones turn FAILED, and nothing else changes.
   */
  lemma RestartCarriesOn(rows: seq<Row>, settings: Settings)
    requires DistinctKeys(rows)
    ensures var rows', q := Marked(rows, settings), RecoveredQueue(rows, settings);
            && |rows'| == |rows| && (forall i :: 0 <= i < |rows| ==> LeftAs(rows[i], settings, rows'[i]))
            && (forall r :: r in rows && LivesOn(r, settings) ==>
                 r.key.id in q.order && r.key.id in q.jobs && JobFor(r, q.jobs[r.key.id], settings))
            && (forall id :: id in q.jobs ==> CarriedOn(rows, settings, (id, q.jobs[id])))
            && q.active == 0 && !q.shutdown
  {
    var q, b := RecoveredQueue(rows, settings), Batch(rows, settings);
    MarkedMeans(rows, settings);
    BatchKeeps(rows, settings);
    RecoveredHolds(rows, settings);
    forall r | r in rows && LivesOn(r, settings)
      ensures r.key.id in q.order && r.key.id in q.jobs && JobFor(r, q.jobs[r.key.id], settings)
    {
      ReconstructMeans(r, settings);
      var x := Reconstruct(r, settings).value;
      assert RebuiltPending(rows, settings, x);
      var i :| 0 <= i < |b| && b[i] == x;
      assert Ids(b)[i] == r.key.id;
    }
    forall id | id in q.jobs ensures CarriedOn(rows, settings, (id, q.jobs[id])) {
      var i :| 0 <= i < |b| && Ids(b)[i] == id;
      assert b[i] in b;
      RebuiltPendingMeans(rows, settings, b[i]);
    }
  }

  /** The rows after a restart and the queue it builds mirror each other exactly. */
  lemma RestartRecovers(rows: seq<Row>, settings: Settings)
    requires DistinctKeys(rows)
    ensures var rows', q := Marked(rows, settings), RecoveredQueue(rows, settings);
            && DistinctKeys(rows') && Distinct(q.order)
            && (forall r :: r in rows' ==> !r.status.Running? && r.priority < q.nextPriority)
            && (forall r :: r in rows' && r.status.Pending? ==> CarriedBy(r, q))
            && (forall id :: id in q.jobs ==>
                 id in q.order && q.jobs[id].status.Pending? && RowOf(id, q.jobs[id]) in rows')
  {
    var rows', q := Marked(rows, settings), RecoveredQueue(rows, settings);
    var b := Batch(rows, settings);
    BatchKeeps(rows, settings);
    RecoveredHolds(rows, settings);
    forall r | r in rows' && r.status.Pending? ensures CarriedBy(r, q) {
      PendingRowCarried(rows, settings, q, b, r);
    }
    forall id | id in q.jobs
      ensures id in q.order && q.jobs[id].status.Pending? && RowOf(id, q.jobs[id]) in rows'
    {
      LiveJobHasRow(rows, settings, q, b, id);
    }
    if rows != [] { MaxPriorityBounds(rows); }
    forall r | r in rows' ensures !r.status.Running? && r.priority < q.nextPriority {
      MarkedRowAt(rows, settings, r);
    }
  }
}
