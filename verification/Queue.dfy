/**
 The job queue's shared state and its critical sections, each function one `with self._cond` block. `jobs`
 holds every job object of this process, `order` is the dict of live jobs in insertion order.
 */
module Queue {
  import opened Common
  import opened Jobs

  datatype Queue = Queue(
    jobs: map<JobId, Job>,
    order: seq<JobId>,
    nextPriority: int,
    active: int,
    shutdown: bool)

  const EMPTY := Queue(map[], [], 0, 0, false)

  predicate Waits(q: Queue, id: JobId) {
    id in q.order && id in q.jobs && q.jobs[id].status.Pending?
  }

  ghost predicate Valid(q: Queue) {
    && Distinct(q.order)
    && (forall id :: id in q.order ==> id in q.jobs)
    && (forall id :: id in q.order && q.jobs[id].status.Pending? ==> q.jobs[id].priority < q.nextPriority)
    && (forall id :: id in q.jobs && q.jobs[id].status.Running? ==> q.jobs[id].cancellable)
    && (forall id :: id in q.jobs && id !in q.order ==> q.jobs[id].status.Pending?)
  }

  // ----- the waiting line -----

  function Insert(jobs: map<JobId, Job>, line: seq<JobId>, id: JobId): seq<JobId>
    requires id in jobs && forall x :: x in line ==> x in jobs
  {
    if line == [] then [id]
    else if jobs[line[0]].priority > jobs[id].priority then [id] + line
    else [line[0]] + Insert(jobs, line[1..], id)
  }

  /** The pending jobs among `order`, by priority, ties in dict order. */
  function Line(jobs: map<JobId, Job>, order: seq<JobId>): (line: seq<JobId>)
    requires forall id :: id in order ==> id in jobs
    ensures forall id :: id in line <==> id in order && jobs[id].status.Pending?
  {
    if order == [] then []
    else
      var n := |order| - 1;
      var rest := Line(jobs, order[..n]);
      assert order == order[..n] + [order[n]];
      if jobs[order[n]].status.Pending? then
        InsertMembers(jobs, rest, order[n]);
        Insert(jobs, rest, order[n])
      else rest
  }

  lemma {:induction false} InsertMembers(jobs: map<JobId, Job>, line: seq<JobId>, id: JobId)
    requires id in jobs && forall x :: x in line ==> x in jobs
    ensures forall x :: x in Insert(jobs, line, id) <==> x in line || x == id
  {
    if line != [] {
      assert line == [line[0]] + line[1..];
      InsertMembers(jobs, line[1..], id);
    }
  }

  function Waiting(q: Queue): seq<JobId>
    requires forall id :: id in q.order ==> id in q.jobs
  {
    Line(q.jobs, q.order)
  }

  // ----- the critical sections -----

  function Enqueue(q: Queue, id: JobId, job: Job): Queue {
    q.(jobs := q.jobs[id := job.(priority := q.nextPriority)],
       order := q.order + [id],
       nextPriority := q.nextPriority + 1)
  }

  function Cancel(q: Queue, id: JobId): (Queue, bool) {
    if Waits(q, id) then (q.(order := Without(q.order, id)), true) else (q, false)
  }

  /** The smallest pending priority; `order` must hold a pending job. */
  function MinPriority(jobs: map<JobId, Job>, order: seq<JobId>): (m: Option<int>)
    requires forall id :: id in order ==> id in jobs
  {
    if order == [] then None
    else
      var rest := MinPriority(jobs, order[1..]);
      var job := jobs[order[0]];
      if !job.status.Pending? then rest
      else if rest.None? || job.priority <= rest.value then Some(job.priority)
      else rest
  }

  function BumpToFront(q: Queue, id: JobId): (Queue, bool)
    requires forall x :: x in q.order ==> x in q.jobs
  {
    if Waits(q, id) then
      var least := MinPriority(q.jobs, q.order).GetOr(0);
      (q.(jobs := q.jobs[id := q.jobs[id].(priority := least - 1)]), true)
    else (q, false)
  }

  function Started(q: Queue, id: JobId): Queue
    requires id in q.jobs
  {
    q.(jobs := q.jobs[id := q.jobs[id].(status := Running, cancellable := true)], active := q.active + 1)
  }

  function ForceStart(q: Queue, id: JobId): (Queue, bool) {
    if q.shutdown || !Waits(q, id) then (q, false) else (Started(q, id), true)
  }

  /** The linear scan: the first listed pending job whose priority no other pending job undercuts. */
  function Lowest(jobs: map<JobId, Job>, order: seq<JobId>): (r: Option<JobId>)
    requires forall id :: id in order ==> id in jobs
    ensures r.Some? ==> r.value in order && jobs[r.value].status.Pending?
    ensures r.None? ==> forall id :: id in order ==> !jobs[id].status.Pending?
  {
    if order == [] then None
    else
      var n := |order| - 1;
      var best := Lowest(jobs, order[..n]);
      var last := order[n];
      assert order == order[..n] + [last];
      if !jobs[last].status.Pending? then best
      else if best.None? || jobs[last].priority < jobs[best.value].priority then Some(last)
      else best
  }

  /** One pass of the claim loop: the job claimed, if any, once the pause gate is open. */
  function Claim(q: Queue): (Queue, Option<JobId>)
    requires forall id :: id in q.order ==> id in q.jobs
  {
    var best := Lowest(q.jobs, q.order);
    if q.shutdown || best.None? then (q, None) else (Started(q, best.value), best)
  }

  function Settle(q: Queue, id: JobId, ok: bool): Queue
    requires id in q.jobs
  {
    q.(jobs := q.jobs[id := q.jobs[id].(status := if ok then Succeeded else Failed)])
  }

  function Release(q: Queue): Queue { q.(active := q.active - 1) }

  function SeedNextPriority(q: Queue, min: int): Queue {
    if min > q.nextPriority then q.(nextPriority := min) else q
  }

  function Rehydrate(q: Queue, batch: seq<(JobId, Job)>): Queue
    decreases |batch|
  {
    if batch == [] then q
    else
      var (id, job) := batch[0];
      Rehydrate(q.(jobs := q.jobs[id := job],
                   order := if id in q.order then q.order else q.order + [id]), batch[1..])
  }

  function Shutdown(q: Queue): Queue { q.(shutdown := true) }

  /** `_has_active_work_locked`. */
  predicate Busy(q: Queue) {
    q.active > 0 || exists id :: id in q.order && Waits(q, id)
  }

  // ----- the line is the stable sort of the pending jobs -----

  /** Before in the line: lower priority, or same priority and earlier in the dict. */
  ghost predicate Before(jobs: map<JobId, Job>, order: seq<JobId>, a: JobId, b: JobId)
    requires a in jobs && b in jobs
  {
    || jobs[a].priority < jobs[b].priority
    || (jobs[a].priority == jobs[b].priority
        && exists i, j :: 0 <= i < j < |order| && order[i] == a && order[j] == b)
  }

  ghost predicate SortedLine(jobs: map<JobId, Job>, line: seq<JobId>) {
    && (forall x :: x in line ==> x in jobs)
    && forall i, j :: 0 <= i < j < |line| ==> jobs[line[i]].priority <= jobs[line[j]].priority
  }

  lemma {:induction false} InsertSorted(jobs: map<JobId, Job>, line: seq<JobId>, id: JobId)
    requires id in jobs && SortedLine(jobs, line)
    ensures SortedLine(jobs, Insert(jobs, line, id))
  {
    InsertMembers(jobs, line, id);
    if line != [] && jobs[line[0]].priority <= jobs[id].priority {
      var r := Insert(jobs, line[1..], id);
      InsertSorted(jobs, line[1..], id);
      InsertMembers(jobs, line[1..], id);
      forall j | 0 <= j < |r| ensures jobs[line[0]].priority <= jobs[r[j]].priority {
        assert r[j] in r;
        if r[j] in line[1..] {
          var k :| 0 <= k < |line[1..]| && line[1..][k] == r[j];
          assert line[k + 1] == r[j];
        }
      }
    }
  }

  lemma {:induction false} LineSorted(jobs: map<JobId, Job>, order: seq<JobId>)
    requires forall id :: id in order ==> id in jobs
    ensures SortedLine(jobs, Line(jobs, order))
  {
    if order != [] {
      var n := |order| - 1;
      LineSorted(jobs, order[..n]);
      if jobs[order[n]].status.Pending? { InsertSorted(jobs, Line(jobs, order[..n]), order[n]); }
    }
  }

  /** Where an insertion lands: everything ahead of it has no higher priority, everything behind a higher one. */
  lemma {:induction false} InsertSplit(jobs: map<JobId, Job>, line: seq<JobId>, id: JobId) returns (k: nat)
    requires id in jobs && SortedLine(jobs, line)
    ensures k <= |line| && Insert(jobs, line, id) == line[..k] + [id] + line[k..]
    ensures forall j :: 0 <= j < k ==> jobs[line[j]].priority <= jobs[id].priority
    ensures forall j :: k <= j < |line| ==> jobs[line[j]].priority > jobs[id].priority
  {
    if line == [] || jobs[line[0]].priority > jobs[id].priority {
      k := 0;
    } else {
      var k' := InsertSplit(jobs, line[1..], id);
      k := k' + 1;
      assert line[..k] == [line[0]] + line[1..][..k'];
      assert line[k..] == line[1..][k'..];
      forall j | k <= j < |line| ensures jobs[line[j]].priority > jobs[id].priority {
        assert line[j] == line[1..][j - 1];
      }
    }
  }

  ghost predicate Ordered(jobs: map<JobId, Job>, order: seq<JobId>, line: seq<JobId>) {
    && (forall x :: x in line ==> x in jobs)
    && forall i, j :: 0 <= i < j < |line| ==> Before(jobs, order, line[i], line[j])
  }

  lemma BeforeExtends(jobs: map<JobId, Job>, order: seq<JobId>, last: JobId, line: seq<JobId>)
    requires Ordered(jobs, order, line)
    ensures Ordered(jobs, order + [last], line)
  {
    forall i, j | 0 <= i < j < |line| ensures Before(jobs, order + [last], line[i], line[j]) {
      if jobs[line[i]].priority == jobs[line[j]].priority {
        var a, b :| 0 <= a < b < |order| && order[a] == line[i] && order[b] == line[j];
        assert (order + [last])[a] == line[i] && (order + [last])[b] == line[j];
      }
    }
  }

  lemma SplicedOrdered(jobs: map<JobId, Job>, order: seq<JobId>, line: seq<JobId>, k: nat, x: JobId)
    requires Ordered(jobs, order, line) && x in jobs && k <= |line|
    requires forall j :: 0 <= j < k ==> Before(jobs, order, line[j], x)
    requires forall j :: k <= j < |line| ==> Before(jobs, order, x, line[j])
    ensures Ordered(jobs, order, line[..k] + [x] + line[k..])
  {
    var r := line[..k] + [x] + line[k..];
    forall i, j | 0 <= i < j < |r| ensures Before(jobs, order, r[i], r[j]) {
      if i == k { assert r[j] == line[j - 1]; }
      else if j == k { assert r[i] == line[i]; }
      else {
        var i', j' := if i < k then i else i - 1, if j < k then j else j - 1;
        assert r[i] == line[i'] && r[j] == line[j'];
      }
    }
  }

  lemma InsertOrdered(jobs: map<JobId, Job>, order: seq<JobId>, line: seq<JobId>, last: JobId)
    requires last in jobs && SortedLine(jobs, line)
    requires Ordered(jobs, order + [last], line) && forall x :: x in line ==> x in order
    ensures Ordered(jobs, order + [last], Insert(jobs, line, last))
  {
    var k := InsertSplit(jobs, line, last);
    forall j | 0 <= j < k ensures Before(jobs, order + [last], line[j], last) {
      assert line[j] in order;
      var i :| 0 <= i < |order| && order[i] == line[j];
      assert (order + [last])[i] == line[j] && (order + [last])[|order|] == last;
    }
    SplicedOrdered(jobs, order + [last], line, k, last);
  }

  /** The waiting line lists the pending jobs once each, in (priority, dict position) order. */
  lemma {:induction false} WaitingIsStableSort(jobs: map<JobId, Job>, order: seq<JobId>)
    requires Distinct(order) && forall id :: id in order ==> id in jobs
    ensures Distinct(Line(jobs, order)) && Ordered(jobs, order, Line(jobs, order))
  {
    if order != [] {
      var n := |order| - 1;
      var prefix, last := order[..n], order[n];
      var rest := Line(jobs, prefix);
      assert order == prefix + [last];
      WaitingIsStableSort(jobs, prefix);
      BeforeExtends(jobs, prefix, last, rest);
      if jobs[last].status.Pending? {
        LineSorted(jobs, prefix);
        InsertOrdered(jobs, prefix, rest, last);
        var k := InsertSplit(jobs, rest, last);
        assert last !in prefix && last !in rest;
      }
    }
  }

  // ----- how each critical section moves the line -----

  lemma {:induction false} LineFrame(jobs: map<JobId, Job>, jobs': map<JobId, Job>, order: seq<JobId>)
    requires forall id :: id in order ==> id in jobs && id in jobs' && jobs[id] == jobs'[id]
    ensures Line(jobs, order) == Line(jobs', order)
  {
    if order != [] {
      var n := |order| - 1;
      LineFrame(jobs, jobs', order[..n]);
      InsertFrame(jobs, jobs', Line(jobs, order[..n]), order[n]);
    }
  }

  lemma {:induction false} InsertFrame(jobs: map<JobId, Job>, jobs': map<JobId, Job>, line: seq<JobId>, id: JobId)
    requires id in jobs && id in jobs' && jobs[id].priority == jobs'[id].priority
    requires forall x :: x in line ==> x in jobs && x in jobs' && jobs[x].priority == jobs'[x].priority
    ensures Insert(jobs, line, id) == Insert(jobs', line, id)
  {
    if line != [] { InsertFrame(jobs, jobs', line[1..], id); }
  }

  lemma {:induction false} InsertLast(jobs: map<JobId, Job>, line: seq<JobId>, id: JobId)
    requires id in jobs && forall x :: x in line ==> x in jobs && jobs[x].priority <= jobs[id].priority
    ensures Insert(jobs, line, id) == line + [id]
  {
    if line != [] { InsertLast(jobs, line[1..], id); }
  }

  lemma {:induction false} InsertWithout(jobs: map<JobId, Job>, line: seq<JobId>, y: JobId, x: JobId)
    requires y in jobs && SortedLine(jobs, line) && x != y
    ensures Without(Insert(jobs, line, y), x) == Insert(jobs, Without(line, x), y)
  {
    if line != [] {
      if jobs[line[0]].priority > jobs[y].priority {
        if line[0] == x {
          var rest := Without(line[1..], x);
          if rest != [] {
            assert rest[0] in rest;
            var k :| 0 <= k < |line| && line[k] == rest[0];
          }
        }
      } else {
        InsertWithout(jobs, line[1..], y, x);
      }
    }
  }

  /** Dropping a job from the dict drops it from the line and moves nobody else. */
  lemma {:induction false} LineWithout(jobs: map<JobId, Job>, order: seq<JobId>, x: JobId)
    requires Distinct(order) && forall id :: id in order ==> id in jobs
    ensures Line(jobs, Without(order, x)) == Without(Line(jobs, order), x)
  {
    if order != [] {
      var n := |order| - 1;
      var prefix, last := order[..n], order[n];
      assert order == prefix + [last];
      WithoutAppend(prefix, [last], x);
      LineWithout(jobs, prefix, x);
      LineSorted(jobs, prefix);
      if last == x {
        WithoutAbsent(prefix, x);
        assert Without(order, x) == prefix;
        if jobs[x].status.Pending? { InsertThenWithout(jobs, Line(jobs, prefix), x); }
        else { WithoutAbsent(Line(jobs, prefix), x); }
      } else {
        var w := Without(prefix, x);
        assert Without(order, x) == w + [last];
        assert (w + [last])[..|w|] == w;
        if jobs[last].status.Pending? { InsertWithout(jobs, Line(jobs, prefix), last, x); }
      }
    }
  }

  lemma {:induction false} InsertThenWithout(jobs: map<JobId, Job>, line: seq<JobId>, x: JobId)
    requires x in jobs && x !in line && forall y :: y in line ==> y in jobs
    ensures Without(Insert(jobs, line, x), x) == line
  {
    if line != [] {
      if jobs[line[0]].priority > jobs[x].priority { WithoutAbsent(line, x); }
      else { InsertThenWithout(jobs, line[1..], x); }
    }
  }

  /** A job that stops being pending leaves the line and moves nobody else. */
  lemma {:induction false} LineStarted(jobs: map<JobId, Job>, order: seq<JobId>, x: JobId, job: Job)
    requires Distinct(order) && forall id :: id in order ==> id in jobs
    requires x in jobs && !job.status.Pending?
    ensures Line(jobs[x := job], order) == Without(Line(jobs, order), x)
  {
    if order != [] {
      var n := |order| - 1;
      var prefix, last := order[..n], order[n];
      var jobs' := jobs[x := job];
      LineStarted(jobs, prefix, x, job);
      LineSorted(jobs, prefix);
      var rest := Line(jobs, prefix);
      if last == x {
        if jobs[x].status.Pending? { InsertThenWithout(jobs, rest, x); }
        else { WithoutAbsent(rest, x); }
        WithoutAbsent(rest, x);
      } else if jobs[last].status.Pending? {
        InsertWithout(jobs, rest, last, x);
        InsertFrame(jobs, jobs', Without(rest, x), last);
      }
    }
  }

  /** A pending job whose priority drops below all others moves to the head and nobody else moves. */
  lemma {:induction false} LineBumped(jobs: map<JobId, Job>, order: seq<JobId>, x: JobId, job: Job)
    requires Distinct(order) && forall id :: id in order ==> id in jobs
    requires x in order && jobs[x].status.Pending? && job.status.Pending?
    requires forall id :: id in order && id != x && jobs[id].status.Pending? ==> job.priority < jobs[id].priority
    ensures Line(jobs[x := job], order) == [x] + Without(Line(jobs, order), x)
  {
    var n := |order| - 1;
    var prefix, last := order[..n], order[n];
    var jobs' := jobs[x := job];
    var rest := Line(jobs, prefix);
    assert order == prefix + [last];
    LineSorted(jobs, prefix);
    if last == x {
      LineFrame(jobs, jobs', prefix);
      InsertThenWithout(jobs, rest, x);
      assert rest == [] || jobs'[rest[0]].priority > job.priority;
    } else {
      LineBumped(jobs, prefix, x, job);
      if jobs[last].status.Pending? {
        InsertWithout(jobs, rest, last, x);
        var r := Without(rest, x);
        InsertFrame(jobs, jobs', r, last);
        assert ([x] + r)[1..] == r;
      }
    }
  }

  /** The linear min-scan finds exactly the head of the line. */
  lemma {:induction false} LowestIsHead(jobs: map<JobId, Job>, order: seq<JobId>)
    requires forall id :: id in order ==> id in jobs
    ensures Lowest(jobs, order) == if Line(jobs, order) == [] then None else Some(Line(jobs, order)[0])
  {
    if order != [] { LowestIsHead(jobs, order[..|order| - 1]); }
  }

  lemma {:induction false} MinPriorityBounds(jobs: map<JobId, Job>, order: seq<JobId>)
    requires forall id :: id in order ==> id in jobs
    ensures MinPriority(jobs, order).None? <==> forall id :: id in order ==> !jobs[id].status.Pending?
    ensures MinPriority(jobs, order).Some? ==>
              forall id :: id in order && jobs[id].status.Pending?
                  ==> MinPriority(jobs, order).value <= jobs[id].priority
    ensures MinPriority(jobs, order).Some? ==>
              exists id :: id in order && jobs[id].status.Pending?
                  && jobs[id].priority == MinPriority(jobs, order).value
  {
    if order != [] {
      assert order == [order[0]] + order[1..];
      MinPriorityBounds(jobs, order[1..]);
    }
  }

  // ----- the refinement: priorities over a dict behave as a plain line -----

  lemma EnqueueAppends(q: Queue, id: JobId, job: Job)
    requires Valid(q) && id !in q.jobs && job.status.Pending?
    ensures Valid(Enqueue(q, id, job))
    ensures Waiting(Enqueue(q, id, job)) == Waiting(q) + [id]
  {
    var q' := Enqueue(q, id, job);
    assert q'.order[..|q.order|] == q.order;
    LineFrame(q.jobs, q'.jobs, q.order);
    InsertLast(q'.jobs, Waiting(q), id);
  }

  lemma CancelRemoves(q: Queue, id: JobId)
    requires Valid(q)
    ensures var (q', ok) := Cancel(q, id);
            && Valid(q') && (ok <==> id in Waiting(q)) && Waiting(q') == Without(Waiting(q), id)
  {
    if Waits(q, id) {
      WithoutDistinct(q.order, id);
      LineWithout(q.jobs, q.order, id);
    } else {
      WithoutAbsent(Waiting(q), id);
    }
  }

  lemma StartRemoves(q: Queue, id: JobId)
    requires Valid(q) && Waits(q, id)
    ensures Valid(Started(q, id)) && Waiting(Started(q, id)) == Without(Waiting(q), id)
  {
    LineStarted(q.jobs, q.order, id, q.jobs[id].(status := Running, cancellable := true));
  }

  lemma ForceStartRemoves(q: Queue, id: JobId)
    requires Valid(q)
    ensures var (q', ok) := ForceStart(q, id);
            && Valid(q') && (ok <==> id in Waiting(q) && !q.shutdown)
            && Waiting(q') == if ok then Without(Waiting(q), id) else Waiting(q)
  {
    if Waits(q, id) { StartRemoves(q, id); }
  }

  lemma BumpKeepsValid(q: Queue, id: JobId)
    requires Valid(q)
    ensures Valid(BumpToFront(q, id).0)
  {
    if Waits(q, id) { MinPriorityBounds(q.jobs, q.order); }
  }

  lemma BumpShape(q: Queue, id: JobId)
    requires Valid(q) && Waits(q, id)
    ensures var job := q.jobs[id].(priority := MinPriority(q.jobs, q.order).GetOr(0) - 1);
            && BumpToFront(q, id) == (q.(jobs := q.jobs[id := job]), true)
            && forall x :: x in q.order && q.jobs[x].status.Pending? ==> job.priority < q.jobs[x].priority
  {
    MinPriorityBounds(q.jobs, q.order);
  }

  lemma BumpMovesToFront(q: Queue, id: JobId)
    requires Valid(q)
    ensures var (q', ok) := BumpToFront(q, id);
            && (ok <==> id in Waiting(q))
            && Waiting(q') == if ok then [id] + Without(Waiting(q), id) else Waiting(q)
  {
    if Waits(q, id) {
      BumpShape(q, id);
      LineBumped(q.jobs, q.order, id, q.jobs[id].(priority := MinPriority(q.jobs, q.order).GetOr(0) - 1));
    }
  }

  lemma ClaimPopsHead(q: Queue)
    requires Valid(q)
    ensures var (q', r) := Claim(q);
            && Valid(q')
            && r == (if q.shutdown || Waiting(q) == [] then None else Some(Waiting(q)[0]))
            && Waiting(q') == if r.Some? then Waiting(q)[1..] else Waiting(q)
  {
    LowestIsHead(q.jobs, q.order);
    var line := Waiting(q);
    if !q.shutdown && line != [] {
      StartRemoves(q, line[0]);
      WaitingIsStableSort(q.jobs, q.order);
      assert forall k :: 0 <= k < |line[1..]| ==> line[1..][k] == line[k + 1];
      WithoutAbsent(line[1..], line[0]);
    }
  }

  lemma SettleKeepsLine(q: Queue, id: JobId, ok: bool)
    requires Valid(q) && id in q.order && !q.jobs[id].status.Pending?
    ensures Valid(Settle(q, id, ok)) && Waiting(Settle(q, id, ok)) == Waiting(q)
  {
    LineStarted(q.jobs, q.order, id, q.jobs[id].(status := if ok then Succeeded else Failed));
    WithoutAbsent(Waiting(q), id);
  }
}
