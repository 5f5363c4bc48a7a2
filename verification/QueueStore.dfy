/**
 The job queue as an object. Each method is one `with self._cond` block and updates the
 fields in place; its contract gives the new state as the matching function of `Queue` and
 says what the block does to the waiting line.
 */
module QueueStore {
  import opened Common
  import opened Jobs
  import Queue

  // ----- what the methods below need of the line -----

  lemma EnqueuedLine(q: Queue.Queue, id: JobId, job: Job, next: Queue.Queue)
    requires Queue.Valid(q) && id !in q.jobs && job.status.Pending? && next == Queue.Enqueue(q, id, job)
    ensures Queue.Valid(next) && Queue.Waiting(next) == Queue.Waiting(q) + [id]
  {
    Queue.EnqueueAppends(q, id, job);
  }

  lemma BumpedLine(q: Queue.Queue, id: JobId, next: (Queue.Queue, bool))
    requires Queue.Valid(q) && next == Queue.BumpToFront(q, id)
    ensures Queue.Valid(next.0) && (next.1 <==> id in Queue.Waiting(q))
    ensures Queue.Waiting(next.0) == if next.1 then [id] + Without(Queue.Waiting(q), id) else Queue.Waiting(q)
  {
    Queue.BumpKeepsValid(q, id);
    Queue.BumpMovesToFront(q, id);
  }

  /** A scan's smallest priority so far, over the first `i` ids of the dict. */
  ghost predicate LeastOf(jobs: map<JobId, Job>, order: seq<JobId>, i: nat, least: Option<int>)
    requires i <= |order| && forall id :: id in order ==> id in jobs
  {
    match least
    case None => forall k :: 0 <= k < i ==> !jobs[order[k]].status.Pending?
    case Some(m) =>
      && (forall k :: 0 <= k < i && jobs[order[k]].status.Pending? ==> m <= jobs[order[k]].priority)
      && exists k :: 0 <= k < i && jobs[order[k]].status.Pending? && jobs[order[k]].priority == m
  }

  lemma LeastIsMin(jobs: map<JobId, Job>, order: seq<JobId>, least: Option<int>)
    requires (forall id :: id in order ==> id in jobs) && LeastOf(jobs, order, |order|, least)
    ensures least == Queue.MinPriority(jobs, order)
  {
    Queue.MinPriorityBounds(jobs, order);
    if least.Some? {
      var k :| 0 <= k < |order| && jobs[order[k]].status.Pending? && jobs[order[k]].priority == least.value;
      assert order[k] in order;
    }
  }

  lemma LeastOfLine(jobs: map<JobId, Job>, order: seq<JobId>)
    requires forall id :: id in order ==> id in jobs
    ensures Queue.MinPriority(jobs, order).None? <==> Queue.Line(jobs, order) == []
  {
    Queue.MinPriorityBounds(jobs, order);
    HasMember(Queue.Line(jobs, order));
  }

  ghost predicate Given(batch: seq<(JobId, Job)>, x: JobId) { exists k :: 0 <= k < |batch| && batch[k].0 == x }

  /** No later job of the batch has the same id. */
  ghost predicate IsLast(batch: seq<(JobId, Job)>, i: nat)
    requires i < |batch|
  {
    forall k :: i < k < |batch| ==> batch[k].0 != batch[i].0
  }

  lemma GivenHead(batch: seq<(JobId, Job)>, x: JobId)
    requires batch != []
    ensures Given(batch, x) <==> x == batch[0].0 || Given(batch[1..], x)
  {
    if Given(batch[1..], x) {
      var k :| 0 <= k < |batch[1..]| && batch[1..][k].0 == x;
      assert batch[k + 1].0 == x;
    }
    if k :| 0 < k < |batch| && batch[k].0 == x { assert batch[1..][k - 1].0 == x; }
  }

  lemma LastHead(batch: seq<(JobId, Job)>, i: nat)
    requires i < |batch|
    ensures IsLast(batch, i) <==> if i == 0 then !Given(batch[1..], batch[0].0) else IsLast(batch[1..], i - 1)
  {
    assert forall k :: 0 <= k < |batch[1..]| ==> batch[1..][k] == batch[k + 1];
    assert forall k :: 0 < k < |batch| ==> batch[k] == batch[1..][k - 1];
  }

  /** What rehydrating does to any queue: every job of the batch is there as last given, nothing else changes. */
  lemma {:induction false} RehydrateGives(q: Queue.Queue, batch: seq<(JobId, Job)>)
    ensures var q' := Queue.Rehydrate(q, batch);
            && q.order <= q'.order && (Distinct(q.order) ==> Distinct(q'.order))
            && (forall x :: x in q'.order <==> x in q.order || Given(batch, x))
            && (forall x :: x in q'.jobs <==> x in q.jobs || Given(batch, x))
            && (forall x :: x in q'.jobs && !Given(batch, x) ==> q'.jobs[x] == q.jobs[x])
            && (forall i :: 0 <= i < |batch| && IsLast(batch, i) ==>
                 batch[i].0 in q'.jobs && q'.jobs[batch[i].0] == batch[i].1)
    decreases |batch|
  {
    if batch != [] {
      var (id, job) := batch[0];
      var rest := batch[1..];
      var q1 := q.(jobs := q.jobs[id := job], order := if id in q.order then q.order else q.order + [id]);
      var q' := Queue.Rehydrate(q, batch);
      RehydrateGives(q1, rest);
      forall x ensures Given(batch, x) <==> x == id || Given(rest, x) { GivenHead(batch, x); }
      forall i | 0 <= i < |batch| && IsLast(batch, i) ensures batch[i].0 in q'.jobs
          && q'.jobs[batch[i].0] == batch[i].1 {
        LastHead(batch, i);
        if i > 0 { assert rest[i - 1] == batch[i]; }
      }
    }
  }

  class JobQueue {
    /** Every job object of this process. */
    var jobs: map<JobId, Job>
    /** The ids the queue's dict holds, in insertion order. */
    var order: seq<JobId>
    var nextPriority: int
    var active: int
    var down: bool

    ghost function State(): Queue.Queue
      reads this
    {
      Queue.Queue(jobs, order, nextPriority, active, down)
    }

    ghost predicate Valid()
      reads this
    {
      Queue.Valid(State())
    }

    ghost function Line(): seq<JobId>
      requires Valid()
      reads this
    {
      Queue.Waiting(State())
    }

    constructor ()
      ensures Valid() && State() == Queue.EMPTY
    {
      jobs, order, nextPriority, active, down := map[], [], 0, 0, false;
    }

    method Enqueue(id: JobId, job: Job)
      requires Valid() && id !in jobs && job.status.Pending?
      modifies this`jobs, this`order, this`nextPriority
      ensures Valid() && State() == Queue.Enqueue(old(State()), id, job)
      ensures Line() == old(Line()) + [id]
      ensures jobs == old(jobs)[id := job.(priority := old(nextPriority))]
      ensures order == old(order) + [id] && nextPriority == old(nextPriority) + 1
    {
      ghost var was := State();
      jobs := jobs[id := job.(priority := nextPriority)];
      nextPriority := nextPriority + 1;
      order := order + [id];
      EnqueuedLine(was, id, job, State());
    }

    /** The dict lookup and the status test that most of the blocks start with. */
    method IsWaiting(id: JobId) returns (r: bool)
      requires Valid()
      ensures r <==> id in Line()
    {
      r := id in order && jobs[id].status.Pending?;
    }

    method Cancel(id: JobId) returns (ok: bool)
      requires Valid()
      modifies this`order
      ensures Valid() && (State(), ok) == Queue.Cancel(old(State()), id)
      ensures ok <==> id in old(Line())
      ensures Line() == Without(old(Line()), id)
      ensures order == if ok then Without(old(order), id) else old(order)
    {
      Queue.CancelRemoves(State(), id);
      ok := IsWaiting(id);
      if ok { order := Without(order, id); }
    }

    /** `signalled`: the block found a handle to cancel. Every running job has one. */
    method CancelRunning(id: JobId) returns (ok: bool, signalled: bool)
      requires Valid()
      ensures ok <==> id in order && jobs[id].status.Running?
      ensures signalled == ok
    {
      ok := id in order && jobs[id].status.Running?;
      signalled := ok && jobs[id].cancellable;
    }

    method LeastPriority() returns (least: Option<int>)
      requires Valid()
      ensures least == Queue.MinPriority(jobs, order)
      ensures least.None? <==> Line() == []
    {
      least := None;
      for i := 0 to |order|
        invariant LeastOf(jobs, order, i, least)
      {
        var job := jobs[order[i]];
        if job.status.Pending? && (least.None? || job.priority < least.value) { least := Some(job.priority); }
      }
      LeastIsMin(jobs, order, least);
      LeastOfLine(jobs, order);
    }

    method BumpToFront(id: JobId) returns (ok: bool)
      requires Valid()
      modifies this`jobs
      ensures Valid() && (State(), ok) == Queue.BumpToFront(old(State()), id)
      ensures ok <==> id in old(Line())
      ensures Line() == if ok then [id] + Without(old(Line()), id) else old(Line())
      ensures ok ==> id in jobs && jobs == old(jobs)[id := old(jobs)[id].(priority := jobs[id].priority)]
      ensures ok ==> (forall x :: x in old(Line()) ==> jobs[id].priority < old(jobs)[x].priority)
                     && exists x :: x in old(Line()) && old(jobs)[x].priority == jobs[id].priority + 1
      ensures !ok ==> jobs == old(jobs)
    {
      ghost var was := State();
      Queue.MinPriorityBounds(jobs, order);
      ok := IsWaiting(id);
      if ok {
        var least := LeastPriority();
        jobs := jobs[id := jobs[id].(priority := least.value - 1)];
      }
      BumpedLine(was, id, (State(), ok));
    }

    /** The lines `force_start` and the claim loop share. */
    method Start(id: JobId)
      requires Valid() && id in Line()
      modifies this`jobs, this`active
      ensures Valid() && State() == Queue.Started(old(State()), id)
      ensures Line() == Without(old(Line()), id)
      ensures jobs == old(jobs)[id := old(jobs)[id].(status := Running, cancellable := true)]
      ensures active == old(active) + 1
    {
      Queue.StartRemoves(State(), id);
      jobs := jobs[id := jobs[id].(status := Running, cancellable := true)];
      active := active + 1;
    }

    method ForceStart(id: JobId) returns (ok: bool)
      requires Valid()
      modifies this`jobs, this`active
      ensures Valid() && (State(), ok) == Queue.ForceStart(old(State()), id)
      ensures ok <==> id in old(Line()) && !old(down)
      ensures Line() == if ok then Without(old(Line()), id) else old(Line())
      ensures ok ==> jobs == old(jobs)[id := old(jobs)[id].(status := Running, cancellable := true)]
      ensures !ok ==> jobs == old(jobs)
      ensures active == old(active) + if ok then 1 else 0
    {
      if down { return false; }
      ok := IsWaiting(id);
      if ok { Start(id); }
    }

    /** The linear scan over the dict, first minimum wins. */
    method LowestPriorityPending() returns (best: Option<JobId>)
      requires Valid()
      ensures best == Queue.Lowest(jobs, order)
      ensures best == if Line() == [] then None else Some(Line()[0])
    {
      best := None;
      assert order[..0] == [];
      for i := 0 to |order|
        invariant best == Queue.Lowest(jobs, order[..i])
      {
        var job := jobs[order[i]];
        assert order[..i + 1][..i] == order[..i];
        if job.status.Pending? && (best.None? || job.priority < jobs[best.value].priority) { best := Some(order[i]); }
      }
      assert order[..|order|] == order;
      Queue.LowestIsHead(jobs, order);
    }

    /** One pass of the claim loop; `paused` is what the pause gate reads at that moment. */
    method ClaimNext(paused: bool) returns (claimed: Option<JobId>)
      requires Valid()
      modifies this`jobs, this`active
      ensures Valid()
      ensures paused ==> State() == old(State()) && claimed == None
      ensures !paused ==> (State(), claimed) == Queue.Claim(old(State()))
      ensures claimed.Some? ==> old(Line()) == [claimed.value] + Line()
      ensures claimed.None? ==> Line() == old(Line())
      ensures claimed.None? <==> paused || down || old(Line()) == []
      ensures claimed.Some? ==>
                jobs == old(jobs)[claimed.value := old(jobs)[claimed.value].(status := Running, cancellable := true)]
      ensures claimed.None? ==> jobs == old(jobs)
      ensures active == old(active) + if claimed.Some? then 1 else 0
    {
      claimed := None;
      if down || paused { return; }
      Queue.ClaimPopsHead(State());
      claimed := LowestPriorityPending();
      if claimed.Some? { Start(claimed.value); }
    }

    method Settle(id: JobId, ok: bool)
      requires Valid() && id in order && jobs[id].status.Running?
      modifies this`jobs
      ensures Valid() && State() == Queue.Settle(old(State()), id, ok) && Line() == old(Line())
      ensures jobs.Keys == old(jobs).Keys && (forall x :: x in jobs && x != id ==> jobs[x] == old(jobs)[x])
      ensures jobs[id] == old(jobs)[id].(status := jobs[id].status)
      ensures (jobs[id].status.Succeeded? <==> ok) && (jobs[id].status.Failed? <==> !ok)
    {
      Queue.SettleKeepsLine(State(), id, ok);
      jobs := jobs[id := jobs[id].(status := if ok then Succeeded else Failed)];
    }

    method Release()
      requires Valid()
      modifies this`active
      ensures Valid() && State() == Queue.Release(old(State())) && Line() == old(Line())
      ensures active == old(active) - 1
    {
      active := active - 1;
    }

    method SeedNextPriority(min: int)
      requires Valid()
      modifies this`nextPriority
      ensures Valid() && State() == Queue.SeedNextPriority(old(State()), min) && Line() == old(Line())
      ensures nextPriority >= min && nextPriority >= old(nextPriority)
      ensures nextPriority == min || nextPriority == old(nextPriority)
    {
      if min > nextPriority { nextPriority := min; }
    }

    /** Trusts what it is given: ids, priorities and statuses are taken as they are. */
    method Rehydrate(batch: seq<(JobId, Job)>)
      modifies this`jobs, this`order
      ensures State() == Queue.Rehydrate(old(State()), batch)
      ensures old(order) <= order && (Distinct(old(order)) ==> Distinct(order))
      ensures forall x :: x in order <==> x in old(order) || Given(batch, x)
      ensures forall x :: x in jobs <==> x in old(jobs) || Given(batch, x)
      ensures forall x :: x in jobs && !Given(batch, x) ==> jobs[x] == old(jobs)[x]
      ensures forall i :: 0 <= i < |batch| && IsLast(batch, i) ==>
                batch[i].0 in jobs && jobs[batch[i].0] == batch[i].1
    {
      RehydrateGives(State(), batch);
      for i := 0 to |batch|
        invariant Queue.Rehydrate(State(), batch[i..]) == Queue.Rehydrate(old(State()), batch)
      {
        var (id, job) := batch[i];
        assert batch[i..][0] == batch[i] && batch[i..][1..] == batch[i + 1..];
        jobs := jobs[id := job];
        if id !in order { order := order + [id]; }
      }
    }

    method HasActiveWork() returns (busy: bool)
      requires Valid()
      ensures busy <==> active > 0 || Line() != []
      ensures busy <==> Queue.Busy(State())
    {
      HasMember(Line());
      if active > 0 { return true; }
      for i := 0 to |order|
        invariant forall k :: 0 <= k < i ==> !jobs[order[k]].status.Pending?
      {
        if jobs[order[i]].status.Pending? {
          assert order[i] in order && Queue.Waits(State(), order[i]);
          assert order[i] in Line();
          return true;
        }
      }
      return false;
    }

    /** `first`: this call flipped the flag, so it is the one that may join the threads. */
    method Shutdown() returns (first: bool)
      requires Valid()
      modifies this`down
      ensures Valid() && State() == Queue.Shutdown(old(State())) && Line() == old(Line())
      ensures down && first == !old(down)
    {
      first := !down;
      down := true;
    }
  }
}
