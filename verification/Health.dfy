/**
 Health reconciliation: an edge detector over persisted rows. Over any run each check's notifications are
 exactly the edges of its own history, and only a dismissal made in the current streak hides it.
 */
module Health {
  import opened Common
  import opened Text

  type Time = int

  datatype Key = Key(code: string, instance: Option<int>)

  datatype CheckResult = CheckResult(key: Key, passing: bool, category: string, severity: string, message: string)

  datatype Row = Row(
    key: Key,
    failing: bool,
    category: string,
    severity: string,
    message: string,
    firstFailedAt: Option<Time>,
    lastCheckedAt: Time,
    dismissedAt: Option<Time>)

  datatype Event = WentDown | CameBack

  type Transition = (Key, Event)

  datatype DismissError = NotFound | NotFailing

  /** The rows by id, one per key. */
  type Rows = seq<Row>

  ghost predicate DistinctKeys(rows: Rows) {
    forall i, j :: 0 <= i < j < |rows| ==> rows[i].key != rows[j].key
  }

  function IndexOf(rows: Rows, key: Key): (i: nat)
    ensures i <= |rows| && (i < |rows| ==> rows[i].key == key) && forall j :: 0 <= j < i ==> rows[j].key != key
  {
    if rows == [] || rows[0].key == key then 0 else 1 + IndexOf(rows[1..], key)
  }

  lemma FoundAt(rows: Rows, key: Key, i: nat)
    requires DistinctKeys(rows) && i < |rows| && rows[i].key == key
    ensures IndexOf(rows, key) == i
  {
  }

  lemma NotFound(rows: Rows, key: Key)
    requires forall j :: 0 <= j < |rows| ==> rows[j].key != key
    ensures IndexOf(rows, key) == |rows|
  {
  }

  // ----- one result -----

  function NewRow(r: CheckResult, now: Time): Row {
    Row(r.key, !r.passing, r.category, r.severity, r.message, if r.passing then None else Some(now), now, None)
  }

  function Refreshed(row: Row, r: CheckResult, now: Time): Row {
    var live := row.(category := r.category, severity := r.severity, message := r.message, lastCheckedAt := now);
    if r.passing then
      if row.failing then live.(failing := false, firstFailedAt := None) else live
    else if !row.failing then live.(failing := true, firstFailedAt := Some(now), dismissedAt := None)
    else live
  }

  function Observe(rows: Rows, r: CheckResult, now: Time): Rows {
    var i := IndexOf(rows, r.key);
    if i == |rows| then rows + [NewRow(r, now)] else rows[i := Refreshed(rows[i], r, now)]
  }

  function WasFailing(rows: Rows, key: Key): bool {
    var i := IndexOf(rows, key);
    i < |rows| && rows[i].failing
  }

  function Noticed(rows: Rows, r: CheckResult): seq<Transition> {
    if WasFailing(rows, r.key) == !r.passing then [] else [(r.key, if r.passing then CameBack else WentDown)]
  }

  function Reconciled(rows: Rows, results: seq<CheckResult>, now: Time): Rows {
    if results == [] then rows
    else Observe(Reconciled(rows, results[..|results| - 1], now), results[|results| - 1], now)
  }

  function Transitions(rows: Rows, results: seq<CheckResult>, now: Time): seq<Transition> {
    if results == [] then []
    else
      var n := |results| - 1;
      Transitions(rows, results[..n], now) + Noticed(Reconciled(rows, results[..n], now), results[n])
  }

  // ----- the store -----

  /** The dict built from the rows: each key's position. */
  ghost predicate Indexes(existing: map<Key, nat>, rows: Rows) {
    && (forall k :: k in existing ==> existing[k] < |rows| && rows[existing[k]].key == k)
    && (forall j :: 0 <= j < |rows| ==> rows[j].key in existing)
  }

  lemma IndexesFinds(existing: map<Key, nat>, rows: Rows, key: Key)
    requires DistinctKeys(rows) && Indexes(existing, rows)
    ensures IndexOf(rows, key) == if key in existing then existing[key] else |rows|
  {
    if key in existing { FoundAt(rows, key, existing[key]); } else { NotFound(rows, key); }
  }

  /** By code, and for one code the check without an instance first. */
  predicate KeyBefore(a: Key, b: Key) {
    || LexLess(a.code, b.code)
    || (a.code == b.code && b.instance.Some? && (a.instance.None? || a.instance.value < b.instance.value))
  }

  ghost predicate ByKey(rows: Rows) {
    forall i, j :: 0 <= i < j < |rows| ==>
      var a, b := rows[i].key, rows[j].key;
      || LexLess(a.code, b.code)
      || (a.code == b.code && a.instance.None? && b.instance.Some?)
      || (a.code == b.code && a.instance.Some? && b.instance.Some? && a.instance.value < b.instance.value)
  }

  lemma KeyOrder(a: Key, b: Key, c: Key)
    ensures a == b || KeyBefore(a, b) || KeyBefore(b, a)
    ensures KeyBefore(a, b) && KeyBefore(b, c) ==> KeyBefore(a, c)
  {
    LexOrder(a.code, b.code, c.code);
  }

  method InsertByKey(rows: Rows, row: Row) returns (r: Rows)
    requires ByKey(rows) && forall x :: x in rows ==> x.key != row.key
    ensures ByKey(r) && forall x :: x in r <==> x in rows || x == row
  {
    var k := 0;
    while k < |rows| && KeyBefore(rows[k].key, row.key)
      invariant k <= |rows| && forall i :: 0 <= i < k ==> KeyBefore(rows[i].key, row.key)
    {
      k := k + 1;
    }
    r := rows[..k] + [row] + rows[k..];
    forall i | k <= i < |rows| ensures KeyBefore(row.key, rows[i].key) {
      assert rows[k] in rows;
      KeyOrder(row.key, rows[k].key, rows[i].key);
    }
    InsertAt(rows, row, k);
    InsertedByKey(rows, row, k);
  }

  lemma InsertedByKey(rows: Rows, row: Row, k: nat)
    requires ByKey(rows) && k <= |rows|
    requires forall i :: 0 <= i < k ==> KeyBefore(rows[i].key, row.key)
    requires forall i :: k <= i < |rows| ==> KeyBefore(row.key, rows[i].key)
    ensures ByKey(rows[..k] + [row] + rows[k..])
  {
    InsertAt(rows, row, k);
    var r := rows[..k] + [row] + rows[k..];
    forall i, j | 0 <= i < j < |r| ensures KeyBefore(r[i].key, r[j].key) {
      if i == k { assert r[j] == rows[j - 1]; }
      else if j == k { assert r[i] == rows[i]; }
      else { assert r[i] == rows[if i < k then i else i - 1] && r[j] == rows[if j < k then j else j - 1]; }
    }
  }

  class HealthStore {
    var rows: Rows

    constructor ()
      ensures rows == []
    {
      rows := [];
    }

    /** One result against the rows, as the loop body does it. */
    method ReconcileOne(r: CheckResult, now: Time, existing: map<Key, nat>)
      returns (existing': map<Key, nat>, noticed: seq<Transition>)
      requires DistinctKeys(rows) && Indexes(existing, rows)
      modifies this
      ensures rows == Observe(old(rows), r, now) && noticed == Noticed(old(rows), r)
      ensures DistinctKeys(rows) && Indexes(existing', rows)
    {
      IndexesFinds(existing, rows, r.key);
      KeysStayDistinct(rows, r, now);
      existing', noticed := existing, [];
      if r.key !in existing {
        existing' := existing[r.key := |rows|];
        rows := rows + [NewRow(r, now)];
        if !r.passing { noticed := [(r.key, WentDown)]; }
      } else {
        var i := existing[r.key];
        var wasFailing := rows[i].failing;
        var live := rows[i].(category := r.category, severity := r.severity, message := r.message,
            lastCheckedAt := now);
        if r.passing {
          if wasFailing {
            live := live.(failing := false, firstFailedAt := None);
            noticed := [(r.key, CameBack)];
          }
        } else if !wasFailing {
          live := live.(failing := true, firstFailedAt := Some(now), dismissedAt := None);
          noticed := [(r.key, WentDown)];
        }
        rows := rows[i := live];
      }
    }

    /** The dict of rows by key that a tick starts from. */
    method ExistingByKey() returns (existing: map<Key, nat>)
      ensures Indexes(existing, rows)
    {
      existing := map[];
      for i := 0 to |rows|
        invariant Indexes(existing, rows[..i])
      {
        existing := existing[rows[i].key := i];
      }
      assert rows[..|rows|] == rows;
    }

    method Reconcile(results: seq<CheckResult>, now: Time) returns (transitions: seq<Transition>)
      requires DistinctKeys(rows)
      modifies this
      ensures rows == Reconciled(old(rows), results, now) && transitions == Transitions(old(rows), results, now)
      ensures DistinctKeys(rows) && TickShows(old(rows), results, now, rows)
    {
      ReconciledShows(rows, results, now);
      var existing := ExistingByKey();
      transitions := [];
      for n := 0 to |results|
        invariant DistinctKeys(rows) && Indexes(existing, rows)
        invariant rows == Reconciled(old(rows), results[..n], now)
                && transitions == Transitions(old(rows), results[..n], now)
      {
        assert results[..n + 1][..n] == results[..n];
        var noticed;
        existing, noticed := ReconcileOne(results[n], now, existing);
        transitions := transitions + noticed;
      }
      assert results[..|results|] == results;
    }

    method Dismiss(id: nat, now: Time) returns (r: Result<Row, DismissError>)
      modifies this
      ensures id >= |old(rows)| ==> r == Err(NotFound)
      ensures id < |old(rows)| && !old(rows)[id].failing ==> r == Err(NotFailing)
      ensures r.Err? ==> rows == old(rows)
      ensures r.Ok? ==>
              id < |old(rows)| && old(rows)[id].failing
              && rows == old(rows)[id := old(rows)[id].(dismissedAt := Some(now))]
    {
      if id >= |rows| { return Err(NotFound); }
      if !rows[id].failing { return Err(NotFailing); }
      rows := rows[id := rows[id].(dismissedAt := Some(now))];
      r := Ok(rows[id]);
    }

    method Undismiss(id: nat) returns (r: Result<Row, DismissError>)
      modifies this
      ensures id >= |old(rows)| ==> r == Err(NotFound) && rows == old(rows)
      ensures id < |old(rows)| ==> r.Ok? && rows == old(rows)[id := old(rows)[id].(dismissedAt := None)]
    {
      if id >= |rows| { return Err(NotFound); }
      rows := rows[id := rows[id].(dismissedAt := None)];
      r := Ok(rows[id]);
    }

    /** `list_health_check_states`: every row, by code and then instance. */
    method ListStates() returns (listed: seq<Row>)
      requires DistinctKeys(rows)
      ensures ByKey(listed) && forall row :: row in listed <==> row in rows
    {
      listed := [];
      for i := 0 to |rows|
        invariant ByKey(listed) && forall row :: row in listed <==> row in rows[..i]
      {
        assert rows[..i + 1] == rows[..i] + [rows[i]];
        forall row | row in listed ensures row.key != rows[i].key {
          var j :| 0 <= j < i && rows[..i][j] == row;
          assert rows[j].key != rows[i].key;
        }
        listed := InsertByKey(listed, rows[i]);
      }
      assert rows[..|rows|] == rows;
    }

    /** The banner: failing and not dismissed, by code and then instance. */
    method ListFailing() returns (listed: seq<Row>)
      requires DistinctKeys(rows)
      ensures ByKey(listed)
      ensures forall row :: row in listed <==> row in rows && row.failing && row.dismissedAt.None?
    {
      var states := ListStates();
      listed := [];
      for i := 0 to |states|
        invariant ByKey(listed)
        invariant forall row :: row in listed <==> row in states[..i] && row.failing && row.dismissedAt.None?
      {
        assert states[..i + 1] == states[..i] + [states[i]];
        forall row | row in listed ensures KeyBefore(row.key, states[i].key) {
          var j :| 0 <= j < i && states[..i][j] == row;
        }
        assert forall j :: 0 <= j < |listed| ==> listed[j] in listed;
        if states[i].failing && states[i].dismissedAt.None? { listed := listed + [states[i]]; }
      }
      assert states[..|states|] == states;
    }
  }

  // ----- what a tick leaves of the rows -----

  /** Result `i` is the last one for its key. */
  ghost predicate LastResult(results: seq<CheckResult>, i: nat) {
    i < |results| && forall j :: i < j < |results| ==> results[j].key != results[i].key
  }

  ghost predicate Reported(results: seq<CheckResult>, key: Key)
  {
    exists i :: 0 <= i < |results| && results[i].key == key
  }

  /** The row shows what the result says. */
  ghost predicate RowShows(row: Row, r: CheckResult, now: Time) {
    && row.key == r.key && row.failing == !r.passing && row.category == r.category && row.severity == r.severity
    && row.message == r.message && row.lastCheckedAt == now
  }

  /** Every reported key's row shows its last result; the other rows are as they were, where they were. */
  ghost predicate TickShows(rows: Rows, results: seq<CheckResult>, now: Time, rows': Rows) {
    && |rows| <= |rows'|
    && (forall i: nat :: LastResult(results, i) ==> exists k :: 0 <= k < |rows'| && RowShows(rows'[k], results[i], now))
    && (forall k :: 0 <= k < |rows| ==> rows'[k].key == rows[k].key)
    && (forall k :: 0 <= k < |rows| && !Reported(results, rows[k].key) ==> rows'[k] == rows[k])
    && (forall k :: |rows| <= k < |rows'| ==> Reported(results, rows'[k].key))
  }

  lemma ObserveShows(rows: Rows, r: CheckResult, now: Time)
    requires DistinctKeys(rows)
    ensures var rows', k := Observe(rows, r, now), IndexOf(rows, r.key);
            && |rows| <= |rows'| && k < |rows'| && RowShows(rows'[k], r, now)
            && (forall j :: 0 <= j < |rows| ==> rows'[j].key == rows[j].key)
            && (forall j :: 0 <= j < |rows| && j != k ==> rows'[j] == rows[j] && rows[j].key != r.key)
            && (forall j :: |rows| <= j < |rows'| ==> rows'[j].key == r.key)
  {
  }

  lemma ReportedSnoc(results: seq<CheckResult>, r: CheckResult, key: Key)
    ensures Reported(results + [r], key) <==> Reported(results, key) || r.key == key
  {
    if r.key == key { assert (results + [r])[|results|].key == key; }
    if i :| 0 <= i < |results| && results[i].key == key { assert (results + [r])[i].key == key; }
  }

  lemma TickShowsNext(rows: Rows, before: seq<CheckResult>, r: CheckResult, all: seq<CheckResult>, now: Time, mid: Rows,
                      rows': Rows)
    requires DistinctKeys(mid) && TickShows(rows, before, now, mid) && all == before + [r]
    requires rows' == Observe(mid, r, now)
    ensures TickShows(rows, all, now, rows')
  {
    var at := IndexOf(mid, r.key);
    ObserveShows(mid, r, now);
    forall key ensures Reported(all, key) <==> Reported(before, key) || r.key == key { ReportedSnoc(before, r, key); }
    forall i: nat | LastResult(all, i) ensures exists k :: 0 <= k < |rows'| && RowShows(rows'[k], all[i], now) {
      if i < |before| {
        assert all[|before|].key != all[i].key;
        assert forall j :: i < j < |before| ==> all[j] == before[j];
        assert LastResult(before, i);
        var k :| 0 <= k < |mid| && RowShows(mid[k], before[i], now);
        assert RowShows(rows'[k], all[i], now);
      } else {
        assert RowShows(rows'[at], all[i], now);
      }
    }
  }

  lemma NothingShown(rows: Rows, now: Time)
    ensures TickShows(rows, [], now, rows)
  {
  }

  lemma {:induction false} ReconciledShows(rows: Rows, results: seq<CheckResult>, now: Time)
    requires DistinctKeys(rows)
    ensures DistinctKeys(Reconciled(rows, results, now))
            && TickShows(rows, results, now, Reconciled(rows, results, now))
  {
    if results != [] {
      var n: nat := |results| - 1;
      var before := results[..n];
      var mid := Reconciled(rows, before, now);
      ReconciledShows(rows, before, now);
      assert results == before + [results[n]];
      TickShowsNext(rows, before, results[n], results, now, mid, Reconciled(rows, results, now));
      KeysStayDistinct(mid, results[n], now);
    } else {
      NothingShown(rows, now);
    }
  }

  lemma KeysStayDistinct(rows: Rows, r: CheckResult, now: Time)
    requires DistinctKeys(rows)
    ensures DistinctKeys(Observe(rows, r, now))
  {
  }

  // ----- runs -----

  datatype Op = Tick(results: seq<CheckResult>, now: Time) | DismissOp(id: nat, now: Time) | UndismissOp(id: nat)

  datatype State = State(rows: Rows, log: seq<Transition>)

  function Step(s: State, op: Op): State {
    match op
    case Tick(results, now) => State(Reconciled(s.rows, results, now), s.log + Transitions(s.rows, results, now))
    case DismissOp(id, now) =>
      if id < |s.rows| && s.rows[id].failing then s.(rows := s.rows[id := s.rows[id].(dismissedAt := Some(now))]) else s
    case UndismissOp(id) => if id < |s.rows| then s.(rows := s.rows[id := s.rows[id].(dismissedAt := None)]) else s
  }

  function Run(ops: seq<Op>): State {
    if ops == [] then State([], []) else Step(Run(ops[..|ops| - 1]), ops[|ops| - 1])
  }

  /** What happened to one check, in order: its observations, and the dismissals that took effect. */
  datatype Moment = Passed(at: Time) | Broke(at: Time) | Dismissed(at: Time) | Undismissed

  function Seen(results: seq<CheckResult>, now: Time, key: Key): seq<Moment> {
    if results == [] then []
    else
      var n := |results| - 1;
      Seen(results[..n], now, key)
      + if results[n].key == key then [if results[n].passing then Passed(now) else Broke(now)] else []
  }

  function Moments(s: State, op: Op, key: Key): seq<Moment> {
    match op
    case Tick(results, now) => Seen(results, now, key)
    case DismissOp(id, now) => if id < |s.rows| && s.rows[id].key == key && s.rows[id].failing then [Dismissed(now)]
        else []
    case UndismissOp(id) => if id < |s.rows| && s.rows[id].key == key then [Undismissed] else []
  }

  function Timeline(ops: seq<Op>, key: Key): seq<Moment> {
    if ops == [] then []
    else
      var n := |ops| - 1;
      Timeline(ops[..n], key) + Moments(Run(ops[..n]), ops[n], key)
  }

  // ----- what the timeline means, without rows -----

  predicate Down(t: seq<Moment>) {
    if t == [] then false
    else match t[|t| - 1]
         case Passed(_) => false
         case Broke(_) => true
         case _ => Down(t[..|t| - 1])
  }

  /** The edges of the pass/fail history, starting from passing. */
  function Edges(t: seq<Moment>): seq<Event> {
    if t == [] then []
    else
      var before := t[..|t| - 1];
      Edges(before) + match t[|t| - 1]
                      case Passed(_) => if Down(before) then [CameBack] else []
                      case Broke(_) => if Down(before) then [] else [WentDown]
                      case _ => []
  }

  /** When the current failing streak began. */
  function StreakStart(t: seq<Moment>): Option<Time> {
    if t == [] then None
    else
      var before := t[..|t| - 1];
      match t[|t| - 1]
      case Passed(_) => None
      case Broke(at) => if Down(before) then StreakStart(before) else Some(at)
      case _ => StreakStart(before)
  }

  /** The dismissal in force, if one was made since the current streak began and not undone. */
  function Silenced(t: seq<Moment>): Option<Time> {
    if t == [] then None
    else
      var before := t[..|t| - 1];
      match t[|t| - 1]
      case Passed(_) => None
      case Broke(_) => if Down(before) then Silenced(before) else None
      case Dismissed(at) => Some(at)
      case Undismissed => None
  }

  function EventsOf(log: seq<Transition>, key: Key): seq<Event> {
    if log == [] then []
    else EventsOf(log[..|log| - 1], key) + if log[|log| - 1].0 == key then [log[|log| - 1].1] else []
  }

  predicate Observed(t: seq<Moment>) { exists m :: m in t && (m.Passed? || m.Broke?) }

  /** The row of `key` says what its timeline says. */
  ghost predicate Tracks(s: State, key: Key, t: seq<Moment>) {
    var i := IndexOf(s.rows, key);
    && EventsOf(s.log, key) == Edges(t)
    && (i < |s.rows| <==> Observed(t))
    && (i == |s.rows| ==> t == [])
    && (i < |s.rows| ==>
          && s.rows[i].failing == Down(t) && s.rows[i].firstFailedAt == StreakStart(t)
          && (s.rows[i].failing ==> s.rows[i].dismissedAt == Silenced(t)))
  }

  lemma {:induction false} EventsConcat(a: seq<Transition>, b: seq<Transition>, key: Key)
    ensures EventsOf(a + b, key) == EventsOf(a, key) + EventsOf(b, key)
  {
    if b == [] { assert a + b == a; }
    else {
      assert (a + b)[..|a + b| - 1] == a + b[..|b| - 1];
      EventsConcat(a, b[..|b| - 1], key);
    }
  }

  /** What one more moment does to the meaning of a timeline. */
  lemma TimelineSnoc(t: seq<Moment>, m: Moment)
    ensures Down(t + [m]) == match m { case Passed(_) => false case Broke(_) => true case _ => Down(t) }
    ensures Edges(t + [m]) == Edges(t) + match m {
                                           case Passed(_) => if Down(t) then [CameBack] else []
                                           case Broke(_) => if Down(t) then [] else [WentDown]
                                           case _ => []
                                         }
    ensures StreakStart(t + [m]) == match m {
                                      case Passed(_) => None
                                      case Broke(at) => if Down(t) then StreakStart(t) else Some(at)
                                      case _ => StreakStart(t)
                                    }
    ensures Silenced(t + [m]) == match m {
                                   case Passed(_) => None
                                   case Broke(_) => if Down(t) then Silenced(t) else None
                                   case Dismissed(at) => Some(at)
                                   case Undismissed => None
                                 }
  {
    var u := t + [m];
    assert u[..|u| - 1] == t && u[|u| - 1] == m;
  }

  lemma IndexSame(rows: Rows, r: CheckResult, now: Time)
    requires DistinctKeys(rows)
    ensures var rows', i := Observe(rows, r, now), IndexOf(rows, r.key);
            && i < |rows'| && IndexOf(rows', r.key) == i
            && rows'[i] == if i < |rows| then Refreshed(rows[i], r, now) else NewRow(r, now)
  {
    KeysStayDistinct(rows, r, now);
    FoundAt(Observe(rows, r, now), r.key, IndexOf(rows, r.key));
  }

  lemma IndexOther(rows: Rows, r: CheckResult, now: Time, key: Key)
    requires DistinctKeys(rows) && r.key != key
    ensures var rows', i := Observe(rows, r, now), IndexOf(rows, key);
            if i < |rows| then IndexOf(rows', key) == i && i < |rows'|
                && rows'[i] == rows[i] else IndexOf(rows', key) == |rows'|
  {
    KeysStayDistinct(rows, r, now);
    var rows', i := Observe(rows, r, now), IndexOf(rows, key);
    if i < |rows| { FoundAt(rows', key, i); } else { NotFound(rows', key); }
  }

  function MomentOf(r: CheckResult, now: Time): Moment { if r.passing then Passed(now) else Broke(now) }

  lemma ObservedSnoc(t: seq<Moment>, m: Moment)
    ensures Observed(t + [m]) <==> Observed(t) || m.Passed? || m.Broke?
  {
    assert (t + [m])[|t|] == m;
    assert forall x :: x in t ==> x in t + [m];
  }

  lemma EventsSame(s: State, r: CheckResult, now: Time, t: seq<Moment>)
    requires EventsOf(s.log, r.key) == Edges(t) && WasFailing(s.rows, r.key) == Down(t)
    ensures EventsOf(s.log + Noticed(s.rows, r), r.key) == Edges(t + [MomentOf(r, now)])
  {
    EventsConcat(s.log, Noticed(s.rows, r), r.key);
    EventsOne(Noticed(s.rows, r), r.key);
    TimelineSnoc(t, MomentOf(r, now));
  }

  /** There is a streak exactly while the check is down. */
  lemma {:induction false} StreakWhileDown(t: seq<Moment>)
    ensures StreakStart(t).Some? <==> Down(t)
  {
    if t != [] { StreakWhileDown(t[..|t| - 1]); }
  }

  /** One observation of this very check. */
  lemma ObserveSame(s: State, r: CheckResult, now: Time, t: seq<Moment>)
    requires DistinctKeys(s.rows) && Tracks(s, r.key, t)
    ensures Tracks(State(Observe(s.rows, r, now), s.log + Noticed(s.rows, r)), r.key, t + [MomentOf(r, now)])
  {
    EventsSame(s, r, now, t);
    StreakWhileDown(t);
    IndexSame(s.rows, r, now);
    TimelineSnoc(t, MomentOf(r, now));
    ObservedSnoc(t, MomentOf(r, now));
  }

  lemma EventsOne(noticed: seq<Transition>, key: Key)
    requires |noticed| <= 1 && forall x :: x in noticed ==> x.0 == key
    ensures EventsOf(noticed, key) == if noticed == [] then [] else [noticed[0].1]
  {
    if noticed != [] { assert noticed[0] in noticed && noticed[..0] == []; }
  }

  lemma EventsNone(noticed: seq<Transition>, key: Key)
    requires |noticed| <= 1 && forall x :: x in noticed ==> x.0 != key
    ensures EventsOf(noticed, key) == []
  {
    if noticed != [] { assert noticed[0] in noticed && noticed[..0] == []; }
  }

  /** One observation of another check. */
  lemma ObserveOther(s: State, r: CheckResult, now: Time, key: Key, t: seq<Moment>)
    requires DistinctKeys(s.rows) && Tracks(s, key, t) && r.key != key
    ensures Tracks(State(Observe(s.rows, r, now), s.log + Noticed(s.rows, r)), key, t)
  {
    EventsConcat(s.log, Noticed(s.rows, r), key);
    EventsNone(Noticed(s.rows, r), key);
    IndexOther(s.rows, r, now, key);
  }

  /** One more result of a tick. */
  lemma ResultTracks(s: State, r: CheckResult, now: Time, key: Key, t: seq<Moment>)
    requires DistinctKeys(s.rows) && Tracks(s, key, t)
    ensures Tracks(State(Observe(s.rows, r, now), s.log + Noticed(s.rows, r)), key,
            if r.key == key then t + [MomentOf(r, now)] else t)
  {
    if r.key == key { ObserveSame(s, r, now, t); } else { ObserveOther(s, r, now, key, t); }
  }

  lemma TickUnfolds(s: State, results: seq<CheckResult>, now: Time, key: Key)
    requires results != []
    ensures var n := |results| - 1;
            var before := Step(s, Tick(results[..n], now));
            && Step(s, Tick(results, now)) == State(Observe(before.rows, results[n], now),
                 before.log + Noticed(before.rows, results[n]))
            && Seen(results, now, key) == Seen(results[..n], now, key)
                 + if results[n].key == key then [MomentOf(results[n], now)] else []
  {
  }

  /** A whole tick. */
  lemma {:induction false} TickTracks(s: State, results: seq<CheckResult>, now: Time, key: Key, t: seq<Moment>)
    requires DistinctKeys(s.rows) && Tracks(s, key, t)
    ensures DistinctKeys(Step(s, Tick(results, now)).rows)
    ensures Tracks(Step(s, Tick(results, now)), key, t + Seen(results, now, key))
  {
    if results == [] {
      assert t + [] == t && s.log + [] == s.log;
    } else {
      var n := |results| - 1;
      var before := Step(s, Tick(results[..n], now));
      TickTracks(s, results[..n], now, key, t);
      TickUnfolds(s, results, now, key);
      KeysStayDistinct(before.rows, results[n], now);
      ResultTracks(before, results[n], now, key, t + Seen(results[..n], now, key));
      SeenSnoc(t, Seen(results[..n], now, key), MomentOf(results[n], now));
    }
  }

  lemma SeenSnoc(t: seq<Moment>, seen: seq<Moment>, m: Moment)
    ensures (t + seen) + [m] == t + (seen + [m]) && t + (seen + []) == t + seen
  {
  }

  /** Writing one row's dismissal. */
  lemma DismissalTracks(s: State, id: nat, at: Option<Time>, key: Key, t: seq<Moment>)
    requires DistinctKeys(s.rows) && Tracks(s, key, t) && id < |s.rows| && (at.Some? ==> s.rows[id].failing)
    ensures var s' := s.(rows := s.rows[id := s.rows[id].(dismissedAt := at)]);
            DistinctKeys(s'.rows)
            && Tracks(s', key, if s.rows[id].key != key then t
                 else t + [if at.Some? then Dismissed(at.value) else Undismissed])
  {
    var m := if at.Some? then Dismissed(at.value) else Undismissed;
    var rows' := s.rows[id := s.rows[id].(dismissedAt := at)];
    var i := IndexOf(s.rows, key);
    TimelineSnoc(t, m);
    ObservedSnoc(t, m);
    if i < |s.rows| { FoundAt(rows', key, i); } else { NotFound(rows', key); }
    if s.rows[id].key == key { FoundAt(s.rows, key, id); }
  }

  lemma OpTracks(s: State, op: Op, key: Key, t: seq<Moment>)
    requires DistinctKeys(s.rows) && Tracks(s, key, t)
    ensures DistinctKeys(Step(s, op).rows) && Tracks(Step(s, op), key, t + Moments(s, op, key))
  {
    assert t + [] == t;
    match op
    case Tick(results, now) => TickTracks(s, results, now, key, t);
    case DismissOp(id, now) => if id < |s.rows| && s.rows[id].failing { DismissalTracks(s, id, Some(now), key, t); }
    case UndismissOp(id) => if id < |s.rows| { DismissalTracks(s, id, None, key, t); }
  }

  /** In every run, every check's notifications, failure time and dismissal are what its own history says. */
  lemma {:induction false} RunTracks(ops: seq<Op>, key: Key)
    ensures DistinctKeys(Run(ops).rows) && Tracks(Run(ops), key, Timeline(ops, key))
  {
    if ops != [] {
      RunTracks(ops[..|ops| - 1], key);
      OpTracks(Run(ops[..|ops| - 1]), ops[|ops| - 1], key, Timeline(ops[..|ops| - 1], key));
    }
  }

  /**
   Failures and recoveries alternate, starting with a failure; the last one is a failure exactly
   while the check is down.
   */
  lemma {:induction false} EdgesAlternate(t: seq<Moment>)
    ensures forall i :: 0 <= i < |Edges(t)| ==> Edges(t)[i] == if i % 2 == 0 then WentDown else CameBack
    ensures Down(t) <==> |Edges(t)| % 2 == 1
  {
    if t != [] { EdgesAlternate(t[..|t| - 1]); }
  }

  /** What a tick leaves of a check that was up before it: a streak begun in this tick, and no dismissal. */
  lemma {:induction false} FreshStreak(t: seq<Moment>, results: seq<CheckResult>, now: Time, key: Key)
    requires !Down(t)
    ensures var u := t + Seen(results, now, key);
            Down(u) ==> u != [] && StreakStart(u) == Some(now) && Silenced(u) == None
  {
    if results == [] {
      assert t + [] == t;
    } else {
      var n := |results| - 1;
      var seen := Seen(results[..n], now, key);
      FreshStreak(t, results[..n], now, key);
      if results[n].key == key {
        SeenSnoc(t, seen, MomentOf(results[n], now));
        TimelineSnoc(t + seen, MomentOf(results[n], now));
      } else {
        assert seen + [] == seen;
      }
    }
  }

  /** A check that goes down in a tick, however often it is reported there, is listed, whatever was dismissed before. */
  lemma FreshFailureShows(ops: seq<Op>, results: seq<CheckResult>, now: Time, key: Key)
    requires !Down(Timeline(ops, key)) && Down(Timeline(ops + [Tick(results, now)], key))
    ensures var rows := Run(ops + [Tick(results, now)]).rows;
            exists row :: row in rows && row.key == key && row.failing && row.dismissedAt.None?
                && row.firstFailedAt == Some(now)
  {
    var all := ops + [Tick(results, now)];
    assert all[..|ops|] == ops;
    RunTracks(all, key);
    FreshStreak(Timeline(ops, key), results, now, key);
    var rows := Run(all).rows;
    assert rows[IndexOf(rows, key)] in rows;
  }

  // ----- what the page shows of a check -----

  /** The last result reported for `key`, and when. */
  function Latest(ops: seq<Op>, key: Key): Option<(CheckResult, Time)> {
    if ops == [] then None
    else
      var n := |ops| - 1;
      var found := if ops[n].Tick? then LastOf(ops[n].results, key) else None;
      if found.Some? then Some((found.value, ops[n].now)) else Latest(ops[..n], key)
  }

  function LastOf(results: seq<CheckResult>, key: Key): (r: Option<CheckResult>)
    ensures r.Some? ==> exists i: nat :: LastResult(results, i) && results[i] == r.value && r.value.key == key
    ensures r.None? ==> !Reported(results, key)
  {
    if results == [] then None
    else
      var n := |results| - 1;
      if results[n].key == key then
        assert LastResult(results, n);
        Some(results[n])
      else
        var r := LastOf(results[..n], key);
        LastOfSnoc(results, n, key, r);
        r
  }

  lemma LastOfSnoc(results: seq<CheckResult>, n: nat, key: Key, r: Option<CheckResult>)
    requires n + 1 == |results| && results[n].key != key
    requires r.Some? ==> exists i: nat ::
            LastResult(results[..n], i) && results[..n][i] == r.value && r.value.key == key
    requires r.None? ==> !Reported(results[..n], key)
    ensures r.Some? ==> exists i: nat :: LastResult(results, i) && results[i] == r.value && r.value.key == key
    ensures r.None? ==> !Reported(results, key)
  {
    assert forall j :: 0 <= j < n ==> results[..n][j] == results[j];
    if r.Some? {
      var i: nat :| LastResult(results[..n], i) && results[..n][i] == r.value && r.value.key == key;
      assert LastResult(results, i);
    }
  }

  ghost predicate RowSays(rows: Rows, latest: (CheckResult, Time)) {
    exists k :: 0 <= k < |rows| && RowShows(rows[k], latest.0, latest.1)
  }

  /** In every run the row of a reported check shows its last result: category, severity, message, verdict and time. */
  lemma {:induction false} RunShowsLatest(ops: seq<Op>, key: Key)
    requires Latest(ops, key).Some?
    ensures RowSays(Run(ops).rows, Latest(ops, key).value)
  {
    var n := |ops| - 1;
    RunTracks(ops[..n], key);
    var was, latest := Run(ops[..n]).rows, Latest(ops, key).value;
    match ops[n]
    case Tick(results, now) =>
      ReconciledShows(was, results, now);
      if LastOf(results, key).None? {
        RunShowsLatest(ops[..n], key);
        var k :| 0 <= k < |was| && RowShows(was[k], latest.0, latest.1);
        LatestKey(ops[..n], key);
        assert RowShows(Reconciled(was, results, now)[k], latest.0, latest.1);
      }
    case DismissOp(id, now) =>
      RunShowsLatest(ops[..n], key);
      StampKeeps(was, id, Some(now), latest);
    case UndismissOp(id) =>
      RunShowsLatest(ops[..n], key);
      StampKeeps(was, id, None, latest);
  }

  lemma {:induction false} LatestKey(ops: seq<Op>, key: Key)
    ensures Latest(ops, key).Some? ==> Latest(ops, key).value.0.key == key
  {
    if ops != [] { LatestKey(ops[..|ops| - 1], key); }
  }

  lemma StampKeeps(rows: Rows, id: nat, at: Option<Time>, latest: (CheckResult, Time))
    requires RowSays(rows, latest)
    ensures id < |rows| ==> RowSays(rows[id := rows[id].(dismissedAt := at)], latest)
  {
    if id < |rows| {
      var k :| 0 <= k < |rows| && RowShows(rows[k], latest.0, latest.1);
      assert RowShows(rows[id := rows[id].(dismissedAt := at)][k], latest.0, latest.1);
    }
  }
}
