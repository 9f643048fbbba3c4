/** The CloudWatch metrics exporter: a bounded durable queue that drops the oldest metric of the
    namespace being written and sends size-limited batches, one namespace after another. */
module Metrics {
  import opened Common

  const MAX_BODY := 40000
  const MAX_ENTRIES := 20

  /** Namespaces are names that are only compared with each other. */
  type Namespace = nat

  datatype Metric = Metric(name: string, fields: string)
  datatype Row = Row(id: int, namespace: Namespace, metric: Metric)

  /** The size of the request body for the entries of one namespace. */
  type Size = (Namespace, seq<Metric>) -> nat

  /** The durable tables: rows in the order of their ids, and the two counters. */
  datatype Table = Table(rows: seq<Row>, dropped: nat, rejected: nat)

  datatype Answer = Accepted | Invalid | Unavailable

  // --- Rows of one namespace -----------------------------------------------------------------------

  function Of(rows: seq<Row>, namespace: Namespace): seq<Row> {
    if rows == [] then []
    else (if rows[0].namespace == namespace then [rows[0]] else []) + Of(rows[1..], namespace)
  }

  function Entries(rows: seq<Row>): (r: seq<Metric>)
    ensures |r| == |rows|
  {
    if rows == [] then [] else [rows[0].metric] + Entries(rows[1..])
  }

  /** The rows without the first `n` of one namespace. */
  function Without(rows: seq<Row>, namespace: Namespace, n: nat): seq<Row> {
    if rows == [] || n == 0 then rows
    else if rows[0].namespace == namespace then Without(rows[1..], namespace, n - 1)
    else [rows[0]] + Without(rows[1..], namespace, n)
  }

  lemma {:induction false} OfAppend(a: seq<Row>, b: seq<Row>, namespace: Namespace)
    ensures Of(a + b, namespace) == Of(a, namespace) + Of(b, namespace)
  {
    if a == [] {
      assert a + b == b;
    } else {
      Tail(a, b);
      OfAppend(a[1..], b, namespace);
      Assoc(if a[0].namespace == namespace then [a[0]] else [], Of(a[1..], namespace), Of(b, namespace));
    }
  }

  lemma OfCons(r: Row, rest: seq<Row>, namespace: Namespace)
    ensures Of([r] + rest, namespace) ==
            if r.namespace == namespace then [r] + Of(rest, namespace) else Of(rest, namespace)
  {
    assert ([r] + rest)[1..] == rest;
  }

  lemma {:induction false} WithoutLength(rows: seq<Row>, namespace: Namespace, n: nat)
    requires n <= |Of(rows, namespace)|
    ensures |Without(rows, namespace, n)| == |rows| - n
  {
    if rows != [] && n != 0 {
      WithoutLength(rows[1..], namespace, if rows[0].namespace == namespace then n - 1 else n);
    }
  }

  /** Dropping from the front of one namespace leaves the others alone. */
  lemma {:induction false} OfWithout(rows: seq<Row>, namespace: Namespace, n: nat, other: Namespace)
    requires n <= |Of(rows, namespace)|
    ensures Of(Without(rows, namespace, n), other) ==
            if other == namespace then Of(rows, other)[n..] else Of(rows, other)
  {
    if rows != [] && n != 0 {
      var rest := rows[1..];
      assert rows == [rows[0]] + rest;
      OfCons(rows[0], rest, namespace);
      OfCons(rows[0], rest, other);
      if rows[0].namespace == namespace {
        OfWithout(rest, namespace, n - 1, other);
      } else {
        OfWithout(rest, namespace, n, other);
        OfCons(rows[0], Without(rest, namespace, n), other);
      }
    }
  }

  // --- Ids, and deleting by them ---------------------------------------------------------------------

  ghost predicate Rising(rows: seq<Row>) {
    rows == [] || (Above(rows[1..], rows[0].id) && Rising(rows[1..]))
  }

  ghost predicate Above(rows: seq<Row>, id: int) { forall r :: r in rows ==> id < r.id }

  function Delete(rows: seq<Row>, ids: set<int>): seq<Row> {
    if rows == [] then []
    else (if rows[0].id in ids then [] else [rows[0]]) + Delete(rows[1..], ids)
  }

  function Ids(rows: seq<Row>): set<int> {
    if rows == [] then {} else {rows[0].id} + Ids(rows[1..])
  }

  lemma {:induction false} IdsOf(rows: seq<Row>, id: int)
    requires id in Ids(rows)
    ensures exists r :: r in rows && r.id == id
  {
    if id == rows[0].id { assert rows[0] in rows; } else { IdsOf(rows[1..], id); }
  }

  lemma {:induction false} OfIn(rows: seq<Row>, namespace: Namespace, r: Row)
    ensures r in Of(rows, namespace) <==> r in rows && r.namespace == namespace
  {
    if rows != [] { OfIn(rows[1..], namespace, r); }
  }

  lemma {:induction false} DeleteNone(rows: seq<Row>, ids: set<int>)
    requires forall r :: r in rows ==> r.id !in ids
    ensures Delete(rows, ids) == rows
  {
    if rows != [] {
      assert rows[0] in rows;
      DeleteNone(rows[1..], ids);
    }
  }

  lemma {:induction false} DeleteMore(rows: seq<Row>, ids: set<int>, id: int)
    requires Above(rows, id)
    ensures Delete(rows, ids + {id}) == Delete(rows, ids)
  {
    if rows != [] {
      assert rows[0] in rows;
      DeleteMore(rows[1..], ids, id);
    }
  }

  lemma {:induction false} RisingApart(rows: seq<Row>, batch: seq<Row>, id: int)
    requires Above(rows, id) && (forall r :: r in batch ==> r in rows)
    ensures id !in Ids(batch)
  {
    if id in Ids(batch) { IdsOf(batch, id); }
  }

  /** Deleting a batch by its ids drops exactly the first rows of its namespace. */
  lemma {:induction false} DeleteIsWithout(rows: seq<Row>, namespace: Namespace, n: nat)
    requires Rising(rows) && n <= |Of(rows, namespace)|
    ensures Delete(rows, Ids(Of(rows, namespace)[..n])) == Without(rows, namespace, n)
  {
    var batch := Of(rows, namespace)[..n];
    if n == 0 {
      DeleteNone(rows, Ids(batch));
    } else if rows[0].namespace == namespace {
      var rest := Of(rows[1..], namespace)[..n - 1];
      assert batch[1..] == rest;
      DeleteMore(rows[1..], Ids(rest), rows[0].id);
      DeleteIsWithout(rows[1..], namespace, n - 1);
      assert Ids(batch) == Ids(rest) + {rows[0].id};
    } else {
      assert Of(rows, namespace) == Of(rows[1..], namespace);
      forall r | r in batch ensures r in rows[1..] { OfIn(rows[1..], namespace, r); }
      RisingApart(rows[1..], batch, rows[0].id);
      DeleteIsWithout(rows[1..], namespace, n);
    }
  }

  function NextId(rows: seq<Row>): int { if rows == [] then 1 else rows[|rows| - 1].id + 1 }

  lemma {:induction false} RisingAppend(rows: seq<Row>, r: Row)
    requires Rising(rows) && (rows != [] ==> rows[|rows| - 1].id < r.id)
    ensures Rising(rows + [r])
  {
    if rows == [] {
      assert (rows + [r])[1..] == [];
    } else {
      Tail(rows, [r]);
      RisingAppend(rows[1..], r);
      assert rows[|rows| - 1] in rows;
    }
  }

  lemma {:induction false} WithoutIn(rows: seq<Row>, namespace: Namespace, n: nat, r: Row)
    requires r in Without(rows, namespace, n)
    ensures r in rows
  {
    if rows != [] && n != 0 {
      if rows[0].namespace == namespace {
        WithoutIn(rows[1..], namespace, n - 1, r);
      } else if r != rows[0] {
        WithoutIn(rows[1..], namespace, n, r);
      }
    }
  }

  lemma {:induction false} WithoutRises(rows: seq<Row>, namespace: Namespace, n: nat)
    requires Rising(rows)
    ensures Rising(Without(rows, namespace, n))
  {
    if rows != [] && n != 0 {
      if rows[0].namespace == namespace {
        WithoutRises(rows[1..], namespace, n - 1);
      } else {
        var rest := Without(rows[1..], namespace, n);
        WithoutRises(rows[1..], namespace, n);
        forall r | r in rest ensures rows[0].id < r.id { WithoutIn(rows[1..], namespace, n, r); }
        assert ([rows[0]] + rest)[1..] == rest;
      }
    }
  }

  // --- One transaction ----------------------------------------------------------------------------------

  /** A metric that fits is stored; beyond the retention its namespace gives up its oldest. */
  function AfterPut(t: Table, retain: nat, namespace: Namespace, metric: Metric): Table {
    var rows := t.rows + [Row(NextId(t.rows), namespace, metric)];
    if |rows| <= retain then t.(rows := rows) else t.(rows := Without(rows, namespace, 1), dropped := t.dropped + 1)
  }

  /** A batch answered for good leaves the table; a refused one is counted. */
  function AfterBatch(t: Table, namespace: Namespace, n: nat, answer: Answer): Table {
    if answer.Unavailable? then t
    else t.(rows := Without(t.rows, namespace, n), rejected := t.rejected + if answer.Invalid? then n else 0)
  }

  /** Every stored entry fits into a body of its own, ids rise and the retention holds. */
  ghost predicate Sound(t: Table, size: Size, retain: nat) {
    && Rising(t.rows) && |t.rows| <= retain
    && forall r :: r in t.rows ==> size(r.namespace, [r.metric]) <= MAX_BODY
  }

  lemma PutSound(t: Table, size: Size, retain: nat, namespace: Namespace, metric: Metric)
    requires Sound(t, size, retain) && size(namespace, [metric]) <= MAX_BODY
    ensures Sound(AfterPut(t, retain, namespace, metric), size, retain)
  {
    var row := Row(NextId(t.rows), namespace, metric);
    var rows := t.rows + [row];
    RisingAppend(t.rows, row);
    if |rows| > retain {
      OfAppend(t.rows, [row], namespace);
      WithoutRises(rows, namespace, 1);
      WithoutLength(rows, namespace, 1);
      forall r | r in Without(rows, namespace, 1) ensures r in rows { WithoutIn(rows, namespace, 1, r); }
    }
  }

  lemma BatchSound(t: Table, size: Size, retain: nat, namespace: Namespace, n: nat, answer: Answer)
    requires Sound(t, size, retain) && n <= |Of(t.rows, namespace)|
    ensures Sound(AfterBatch(t, namespace, n, answer), size, retain)
  {
    WithoutRises(t.rows, namespace, n);
    WithoutLength(t.rows, namespace, n);
    forall r | r in Without(t.rows, namespace, n) ensures r in t.rows { WithoutIn(t.rows, namespace, n, r); }
  }

  // --- All runs ---------------------------------------------------------------------------------------

  datatype Event =
    | Put(namespace: Namespace, metric: Metric)
    | Sent(namespace: Namespace, n: nat, answer: Answer)
    | Unrecorded(namespace: Namespace, n: nat)   // accepted, then a crash before the rows were deleted

  /** The tables with what was ever accepted, removed as delivered, and delivered. */
  datatype World = World(table: Table, accepted: seq<Row>, delivered: nat, sent: nat)

  /** A batch: the longest run of rows from the front whose bodies all fit, at most twenty. */
  ghost predicate IsBatch(size: Size, namespace: Namespace, rows: seq<Row>, n: nat) {
    && 1 <= n <= |rows| && n <= MAX_ENTRIES
    && (forall k :: 1 <= k <= n ==> size(namespace, Entries(rows[..k])) <= MAX_BODY)
    && (n < |rows| && n < MAX_ENTRIES ==> size(namespace, Entries(rows[..n + 1])) > MAX_BODY)
  }

  ghost predicate Possible(t: Table, size: Size, e: Event) {
    match e
    case Put(_, _) => true
    case Sent(ns, n, _) => IsBatch(size, ns, Of(t.rows, ns), n)
    case Unrecorded(ns, n) => IsBatch(size, ns, Of(t.rows, ns), n)
  }

  function StepTable(t: Table, size: Size, retain: nat, e: Event): Table {
    match e
    case Put(ns, metric) => if size(ns, [metric]) > MAX_BODY then t else AfterPut(t, retain, ns, metric)
    case Sent(ns, n, answer) => AfterBatch(t, ns, n, answer)
    case Unrecorded(_, _) => t
  }

  function Step(w: World, size: Size, retain: nat, e: Event): World {
    var t := StepTable(w.table, size, retain, e);
    match e
    case Put(ns, metric) =>
      if size(ns, [metric]) > MAX_BODY then w
      else w.(table := t, accepted := w.accepted + [Row(NextId(w.table.rows), ns, metric)])
    case Sent(_, n, answer) =>
      var k := if answer.Accepted? then n else 0;
      w.(table := t, delivered := w.delivered + k, sent := w.sent + k)
    case Unrecorded(_, n) => w.(sent := w.sent + n)
  }

  /** `s` is how `t` ends. */
  ghost predicate IsSuffix(s: seq<Row>, t: seq<Row>) { s == t || (t != [] && IsSuffix(s, t[1..])) }

  /** Nothing is unaccounted for, and every namespace retains its newest metrics in order. */
  ghost predicate Good(w: World, size: Size, retain: nat) {
    && Sound(w.table, size, retain)
    && |w.accepted| == w.delivered + w.table.rejected + w.table.dropped + |w.table.rows| && w.delivered <= w.sent
    && forall ns :: IsSuffix(Of(w.table.rows, ns), Of(w.accepted, ns))
  }

  lemma {:induction false} SuffixTail(s: seq<Row>, t: seq<Row>)
    requires IsSuffix(s, t) && s != []
    ensures IsSuffix(s[1..], t)
  {
    if s == t { assert IsSuffix(s[1..], t[1..]); } else { SuffixTail(s, t[1..]); }
  }

  lemma {:induction false} SuffixDrop(s: seq<Row>, t: seq<Row>, n: nat)
    requires IsSuffix(s, t) && n <= |s|
    ensures IsSuffix(s[n..], t)
    decreases n
  {
    if n == 0 {
      assert s[0..] == s;
    } else {
      SuffixTail(s, t);
      SuffixDrop(s[1..], t, n - 1);
      assert s[1..][n - 1..] == s[n..];
    }
  }

  lemma {:induction false} SuffixAppend(s: seq<Row>, t: seq<Row>, x: seq<Row>)
    requires IsSuffix(s, t)
    ensures IsSuffix(s + x, t + x)
  {
    if s != t {
      SuffixAppend(s, t[1..], x);
      Tail(t, x);
    }
  }

  /** In terms of positions: the last elements, as many as there are. */
  lemma {:induction false} SuffixMeaning(s: seq<Row>, t: seq<Row>)
    ensures IsSuffix(s, t) <==> |s| <= |t| && s == t[|t| - |s|..]
  {
    if t == [] {
    } else if |s| >= |t| {
      if s != t && IsSuffix(s, t[1..]) { SuffixMeaning(s, t[1..]); }
      assert |s| == |t| ==> t[0..] == t;
    } else {
      SuffixMeaning(s, t[1..]);
      assert t[|t| - |s|..] == t[1..][|t| - 1 - |s|..];
    }
  }

  lemma PutSuffix(t: Table, retain: nat, row: Row, accepted: seq<Row>, ns: Namespace)
    requires row.id == NextId(t.rows) && IsSuffix(Of(t.rows, ns), Of(accepted, ns))
    ensures IsSuffix(Of(AfterPut(t, retain, row.namespace, row.metric).rows, ns), Of(accepted + [row], ns))
  {
    OfAppend(t.rows, [row], ns);
    OfAppend(accepted, [row], ns);
    SuffixAppend(Of(t.rows, ns), Of(accepted, ns), Of([row], ns));
    if |t.rows| + 1 > retain {
      OfAppend(t.rows, [row], row.namespace);
      OfWithout(t.rows + [row], row.namespace, 1, ns);
      if ns == row.namespace { SuffixDrop(Of(t.rows + [row], ns), Of(accepted + [row], ns), 1); }
    }
  }

  lemma PutKeeps(w: World, v: World, size: Size, retain: nat, ns: Namespace, metric: Metric)
    requires Good(w, size, retain) && size(ns, [metric]) <= MAX_BODY && v == Step(w, size, retain, Put(ns, metric))
    ensures Good(v, size, retain)
  {
    var row := Row(NextId(w.table.rows), ns, metric);
    PutSound(w.table, size, retain, ns, metric);
    OfAppend(w.table.rows, [row], ns);
    WithoutLength(w.table.rows + [row], ns, 1);
    forall other ensures IsSuffix(Of(v.table.rows, other), Of(v.accepted, other)) {
      PutSuffix(w.table, retain, row, w.accepted, other);
    }
  }

  lemma BatchKeeps(w: World, v: World, size: Size, retain: nat, ns: Namespace, n: nat, answer: Answer)
    requires Good(w, size, retain) && n <= |Of(w.table.rows, ns)| && v == Step(w, size, retain, Sent(ns, n, answer))
    ensures Good(v, size, retain)
  {
    BatchSound(w.table, size, retain, ns, n, answer);
    if !answer.Unavailable? {
      WithoutLength(w.table.rows, ns, n);
      forall other ensures IsSuffix(Of(v.table.rows, other), Of(v.accepted, other)) {
        OfWithout(w.table.rows, ns, n, other);
        if other == ns { SuffixDrop(Of(w.table.rows, ns), Of(w.accepted, ns), n); }
      }
    }
  }

  lemma StepKeeps(w: World, size: Size, retain: nat, e: Event)
    requires Good(w, size, retain) && Possible(w.table, size, e)
    ensures Good(Step(w, size, retain, e), size, retain)
  {
    match e
    case Put(ns, metric) =>
      if size(ns, [metric]) <= MAX_BODY { PutKeeps(w, Step(w, size, retain, e), size, retain, ns, metric); }
    case Sent(ns, n, answer) => BatchKeeps(w, Step(w, size, retain, e), size, retain, ns, n, answer);
    case Unrecorded(_, _) =>
  }

  function Run(w: World, size: Size, retain: nat, events: seq<Event>): World
    decreases |events|
  {
    if events == [] then w else Run(Step(w, size, retain, events[0]), size, retain, events[1..])
  }

  function RunTable(t: Table, size: Size, retain: nat, events: seq<Event>): Table
    decreases |events|
  {
    if events == [] then t else RunTable(StepTable(t, size, retain, events[0]), size, retain, events[1..])
  }

  ghost predicate AllPossible(t: Table, size: Size, retain: nat, events: seq<Event>)
    decreases |events|
  {
    events == [] ||
    (Possible(t, size, events[0]) && AllPossible(StepTable(t, size, retain, events[0]), size, retain, events[1..]))
  }

  ghost predicate CrashFree(events: seq<Event>) { forall e :: e in events ==> !e.Unrecorded? }

  /** Conservation and order over every run; without crashes each delivery is counted once. */
  lemma {:induction false} RunKeeps(w: World, size: Size, retain: nat, events: seq<Event>)
    requires Good(w, size, retain) && AllPossible(w.table, size, retain, events)
    ensures Good(Run(w, size, retain, events), size, retain)
    ensures Run(w, size, retain, events).table == RunTable(w.table, size, retain, events)
    ensures CrashFree(events) && w.sent == w.delivered ==>
              Run(w, size, retain, events).sent == Run(w, size, retain, events).delivered
    decreases |events|
  {
    if events != [] {
      StepKeeps(w, size, retain, events[0]);
      RunKeeps(Step(w, size, retain, events[0]), size, retain, events[1..]);
      assert events[0] in events;
    }
  }

  const START := World(Table([], 0, 0), [], 0, 0)

  /** Everything accepted is delivered, rejected, dropped or buffered, within the retention. */
  predicate Conserved(w: World, retain: nat) {
    && |w.accepted| == w.delivered + w.table.rejected + w.table.dropped + |w.table.rows|
    && |w.table.rows| <= retain
  }

  /** The rows kept are the last of all. */
  predicate Newest(kept: seq<Row>, all: seq<Row>) { |kept| <= |all| && kept == all[|all| - |kept|..] }

  lemma GoodMeans(w: World, size: Size, retain: nat, ns: Namespace)
    requires Good(w, size, retain)
    ensures Conserved(w, retain) && Newest(Of(w.table.rows, ns), Of(w.accepted, ns))
  {
    SuffixMeaning(Of(w.table.rows, ns), Of(w.accepted, ns));
  }

  /** After every run from an empty queue: everything accepted is accounted for, within the retention;
      every namespace retains its newest accepted metrics, in order; and without crashes each delivery
      is counted once. */
  lemma EveryRunIsGood(size: Size, retain: nat, events: seq<Event>, ns: Namespace)
    requires AllPossible(START.table, size, retain, events)
    ensures var w := Run(START, size, retain, events);
            && Conserved(w, retain)
            && Newest(Of(w.table.rows, ns), Of(w.accepted, ns))
            && (CrashFree(events) ==> w.sent == w.delivered)
  {
    RunKeeps(START, size, retain, events);
    GoodMeans(Run(START, size, retain, events), size, retain, ns);
  }

  lemma {:induction false} RunConcat(t: Table, size: Size, retain: nat, a: seq<Event>, b: seq<Event>)
    ensures RunTable(t, size, retain, a + b) == RunTable(RunTable(t, size, retain, a), size, retain, b)
    ensures AllPossible(t, size, retain, a) && AllPossible(RunTable(t, size, retain, a), size, retain, b) ==>
              AllPossible(t, size, retain, a + b)
    decreases |a|
  {
    if a == [] {
      assert a + b == b;
    } else {
      Tail(a, b);
      RunConcat(StepTable(t, size, retain, a[0]), size, retain, a[1..], b);
    }
  }

  lemma RunOne(t: Table, size: Size, retain: nat, e: Event)
    ensures RunTable(t, size, retain, [e]) == StepTable(t, size, retain, e)
    ensures AllPossible(t, size, retain, [e]) <==> Possible(t, size, e)
  {
    assert [e][1..] == [];
  }

  // --- The exporter ---------------------------------------------------------------------------------------

  /** The namespaces in the order of their first row. */
  function Namespaces(rows: seq<Row>): (r: seq<Namespace>)
    ensures Distinct(r)
    ensures forall ns :: ns in r <==> Of(rows, ns) != []
  {
    if rows == [] then []
    else
      var rest := Namespaces(rows[1..]);
      [rows[0].namespace] + Remove(rest, rows[0].namespace)
  }

  predicate Distinct(s: seq<Namespace>) { s == [] || (s[0] !in s[1..] && Distinct(s[1..])) }

  function Remove(s: seq<Namespace>, x: Namespace): (r: seq<Namespace>)
    ensures Distinct(s) ==> Distinct(r)
    ensures forall y :: y in r <==> y in s && y != x
  {
    if s == [] then []
    else if s[0] == x then Remove(s[1..], x)
    else
      var rest := Remove(s[1..], x);
      assert ([s[0]] + rest)[1..] == rest;
      [s[0]] + rest
  }

  function Deadline(retryAfter: map<Namespace, int>, ns: Namespace): int {
    if ns in retryAfter then retryAfter[ns] else 0
  }

  /** Whether some namespace has a full batch waiting and is not being held back. */
  predicate AnyFull(rows: seq<Row>, namespaces: seq<Namespace>, retryAfter: map<Namespace, int>, now: int) {
    namespaces != [] &&
    ((|Of(rows, namespaces[0])| >= MAX_ENTRIES && now >= Deadline(retryAfter, namespaces[0]))
     || AnyFull(rows, namespaces[1..], retryAfter, now))
  }

  lemma {:induction false} EntriesTake(rows: seq<Row>, n: nat)
    requires n < |rows|
    ensures Entries(rows[..n + 1]) == Entries(rows[..n]) + [rows[n].metric]
  {
    if n == 0 {
      assert rows[..1][1..] == [];
    } else {
      assert rows[..n + 1][1..] == rows[1..][..n] && rows[..n][1..] == rows[1..][..n - 1];
      EntriesTake(rows[1..], n - 1);
    }
  }

  /** A batch from the front; it is never empty because a single entry always fits. */
  method FormBatch(size: Size, namespace: Namespace, rows: seq<Row>) returns (n: nat)
    requires rows != [] && size(namespace, [rows[0].metric]) <= MAX_BODY
    ensures IsBatch(size, namespace, rows, n)
  {
    n := 0;
    var batch: seq<Metric> := [];
    while n < |rows| && n < MAX_ENTRIES
      invariant n <= |rows| && n <= MAX_ENTRIES && batch == Entries(rows[..n])
      invariant forall k :: 1 <= k <= n ==> size(namespace, Entries(rows[..k])) <= MAX_BODY
    {
      EntriesTake(rows, n);
      var candidate := batch + [rows[n].metric];
      if n == 0 { assert candidate == [rows[0].metric]; }
      if size(namespace, candidate) > MAX_BODY { return; }
      batch, n := candidate, n + 1;
    }
  }

  ghost predicate OthersKeep(before: seq<Row>, after: seq<Row>, ns: Namespace) {
    forall other :: other != ns ==> Of(after, other) == Of(before, other)
  }

  ghost predicate OthersHeld(before: map<Namespace, int>, after: map<Namespace, int>, ns: Namespace) {
    forall other :: other != ns ==>
      (other in after <==> other in before) && Deadline(after, other) == Deadline(before, other)
  }

  /** What deleting an answered batch does to its namespace and to the others. */
  lemma BatchDeleted(t: Table, v: Table, size: Size, retain: nat, ns: Namespace, n: nat, answer: Answer)
    requires Sound(t, size, retain) && IsBatch(size, ns, Of(t.rows, ns), n) && !answer.Unavailable?
    requires v.rows == Delete(t.rows, Ids(Of(t.rows, ns)[..n]))
    requires v.dropped == t.dropped && v.rejected == t.rejected + if answer.Invalid? then n else 0
    ensures v == StepTable(t, size, retain, Sent(ns, n, answer)) && Sound(v, size, retain)
    ensures Of(v.rows, ns) == Of(t.rows, ns)[n..]
    ensures OthersKeep(t.rows, v.rows, ns)
  {
    DeleteIsWithout(t.rows, ns, n);
    BatchSound(t, size, retain, ns, n, answer);
    OfWithout(t.rows, ns, n, ns);
    forall other | other != ns ensures Of(v.rows, other) == Of(t.rows, other) { OfWithout(t.rows, ns, n, other); }
  }

  /** One more event at the end of a run that starts from `s`. */
  lemma RunFurther(s: Table, t: Table, v: Table, size: Size, retain: nat, events: seq<Event>, e: Event)
    requires t == RunTable(s, size, retain, events) && AllPossible(s, size, retain, events)
    requires Possible(t, size, e) && v == StepTable(t, size, retain, e)
    ensures v == RunTable(s, size, retain, events + [e]) && AllPossible(s, size, retain, events + [e])
  {
    RunConcat(s, size, retain, events, [e]);
    RunOne(t, size, retain, e);
  }

  ghost predicate SentFor(events: seq<Event>, ns: Namespace) {
    forall e :: e in events ==> e.Sent? && e.namespace == ns
  }

  /** Every namespace not in `rest` is empty or held back. */
  ghost predicate Settled(rows: seq<Row>, retryAfter: map<Namespace, int>, rest: seq<Namespace>) {
    forall ns :: ns !in rest ==> Of(rows, ns) == [] || ns in retryAfter
  }

  ghost predicate Untouched(before: map<Namespace, int>, after: map<Namespace, int>, rest: seq<Namespace>) {
    forall ns :: ns in rest ==> Deadline(after, ns) == Deadline(before, ns)
  }

  /** Only these namespaces were called, and none that is held back. */
  ghost predicate AllDue(events: seq<Event>, namespaces: seq<Namespace>, retryAfter: map<Namespace, int>, now: int) {
    forall e :: e in events ==> e.Sent? && e.namespace in namespaces && Deadline(retryAfter, e.namespace) <= now
  }

  lemma AllDueMore(events: seq<Event>, more: seq<Event>, namespaces: seq<Namespace>, retryAfter: map<Namespace, int>,
                   now: int, ns: Namespace)
    requires AllDue(events, namespaces, retryAfter, now) && SentFor(more, ns)
    requires ns in namespaces && Deadline(retryAfter, ns) <= now
    ensures AllDue(events + more, namespaces, retryAfter, now)
  {}

  lemma SettledNext(rows: seq<Row>, after: seq<Row>, held: map<Namespace, int>, retryAfter: map<Namespace, int>,
                    rest: seq<Namespace>, ns: Namespace)
    requires Settled(rows, held, rest) && rest != [] && ns == rest[0]
    requires OthersKeep(rows, after, ns) && OthersHeld(held, retryAfter, ns)
    requires (Of(after, ns) == [] || ns in retryAfter)
    ensures Settled(after, retryAfter, rest[1..])
  {
    forall x | x !in rest[1..] ensures Of(after, x) == [] || x in retryAfter {
      if x != ns { assert x !in rest; }
    }
  }

  lemma {:induction false} AnyFullActive(rows: seq<Row>, namespaces: seq<Namespace>, all: map<Namespace, int>,
                                         active: map<Namespace, int>, now: int)
    requires forall ns :: ns in namespaces ==> Deadline(active, ns) == Deadline(all, ns)
    ensures AnyFull(rows, namespaces, all, now) == AnyFull(rows, namespaces, active, now)
  {
    if namespaces != [] { AnyFullActive(rows, namespaces[1..], all, active, now); }
  }

  class Exporter {
    const size: Size
    const retain: nat
    const interval: int
    var rows: seq<Row>
    var dropped: nat
    var rejected: nat
    var last: int
    var retryAfter: map<Namespace, int>

    function Now(): Table
      reads this
    {
      Table(rows, dropped, rejected)
    }

    ghost predicate Valid()
      reads this
    {
      Sound(Now(), size, retain)
    }

    constructor (size: Size, retain: nat, interval: int, now: int)
      ensures Valid() && Now() == Table([], 0, 0) && this.size == size && this.retain == retain
    {
      this.size, this.retain, this.interval, last := size, retain, interval, now;
      rows, dropped, rejected, retryAfter := [], 0, 0, map[];
    }

    /** Accept a metric, or refuse one that is malformed or too large to be sent alone. */
    method Accept(wellFormed: bool, ns: Namespace, metric: Metric) returns (ok: bool)
      requires Valid()
      modifies this
      ensures Valid() && last == old(last) && retryAfter == old(retryAfter)
      ensures ok <==> wellFormed && size(ns, [metric]) <= MAX_BODY
      ensures Now() == if ok then StepTable(old(Now()), size, retain, Put(ns, metric)) else old(Now())
    {
      ok := wellFormed && size(ns, [metric]) <= MAX_BODY;
      if !ok { return; }
      PutSound(Now(), size, retain, ns, metric);
      rows := rows + [Row(NextId(rows), ns, metric)];
      if |rows| > retain {
        rows, dropped := Without(rows, ns, 1), dropped + 1;
      }
    }

    /** Send the next batch of a namespace, whose rows are `rest`, and record the answer. */
    method Send(ns: Namespace, rest: seq<Row>, answer: Answer, retryAt: int) returns (n: nat)
      requires Valid() && rest == Of(rows, ns) != []
      modifies this
      ensures Valid() && last == old(last) && Possible(old(Now()), size, Sent(ns, n, answer))
      ensures Now() == StepTable(old(Now()), size, retain, Sent(ns, n, answer))
      ensures Of(rows, ns) == if answer.Unavailable? then rest else rest[n..]
      ensures answer.Unavailable? <==> ns in retryAfter
      ensures OthersKeep(old(rows), rows, ns) && OthersHeld(old(retryAfter), retryAfter, ns)
    {
      OfIn(rows, ns, rest[0]);
      n := FormBatch(size, ns, rest);
      if answer.Unavailable? {
        retryAfter := retryAfter[ns := retryAt];
        return;
      }
      retryAfter := retryAfter - {ns};
      Settle(ns, rest[..n], answer);
    }

    /** Delete an answered batch, the front of its namespace, and count a refused one. */
    method Settle(ns: Namespace, batch: seq<Row>, answer: Answer)
      requires Valid() && !answer.Unavailable? && IsBatch(size, ns, Of(rows, ns), |batch|)
      requires batch == Of(rows, ns)[..|batch|]
      modifies this`rows, this`rejected
      ensures Valid() && Now() == StepTable(old(Now()), size, retain, Sent(ns, |batch|, answer))
      ensures Of(rows, ns) == old(Of(rows, ns))[|batch|..] && OthersKeep(old(rows), rows, ns)
    {
      ghost var t := Now();
      rows := Delete(rows, Ids(batch));
      rejected := rejected + if answer.Invalid? then |batch| else 0;
      BatchDeleted(t, Now(), size, retain, ns, |batch|, answer);
    }

    /** Send one namespace batch by batch until it is empty or the service is unavailable. */
    method Drain(ns: Namespace, answers: nat -> Answer, clock: nat -> int, first: nat)
      returns (calls: nat, ghost events: seq<Event>)
      requires Valid()
      modifies this
      ensures Valid() && last == old(last) && SentFor(events, ns)
      ensures Now() == RunTable(old(Now()), size, retain, events) && AllPossible(old(Now()), size, retain, events)
      ensures Of(rows, ns) == [] || ns in retryAfter
      ensures OthersKeep(old(rows), rows, ns) && OthersHeld(old(retryAfter), retryAfter, ns)
    {
      calls, events := first, [];
      var rest := Of(rows, ns);
      while rest != []
        invariant Valid() && last == old(last) && SentFor(events, ns) && rest == Of(rows, ns)
        invariant Now() == RunTable(old(Now()), size, retain, events) && AllPossible(old(Now()), size, retain, events)
        invariant OthersKeep(old(rows), rows, ns) && OthersHeld(old(retryAfter), retryAfter, ns)
        decreases |rest|
      {
        var answer := answers(calls);
        calls := calls + 1;
        ghost var t := Now();
        var n := Send(ns, rest, answer, clock(calls) + if interval > 1 then interval else 1);
        RunFurther(old(Now()), t, Now(), size, retain, events, Sent(ns, n, answer));
        events := events + [Sent(ns, n, answer)];
        if answer.Unavailable? { return; }
        rest := rest[n..];
      }
    }

    /** Send the namespaces one after the other, except those that are held back. */
    method Pass(namespaces: seq<Namespace>, now: nat, answers: nat -> Answer, clock: nat -> int)
      returns (calls: nat, ghost events: seq<Event>)
      requires Valid() && Distinct(namespaces) && Settled(rows, retryAfter, namespaces)
      modifies this
      ensures Valid() && last == old(last) && AllDue(events, namespaces, old(retryAfter), now)
      ensures Settled(rows, retryAfter, [])
      ensures Now() == RunTable(old(Now()), size, retain, events) && AllPossible(old(Now()), size, retain, events)
    {
      calls, events := 0, [];
      var rest := namespaces;
      while rest != []
        invariant Valid() && last == old(last) && Distinct(rest)
        invariant Now() == RunTable(old(Now()), size, retain, events) && AllPossible(old(Now()), size, retain, events)
        invariant AllDue(events, namespaces, old(retryAfter), now) && Settled(rows, retryAfter, rest)
        invariant Untouched(old(retryAfter), retryAfter, rest) && forall ns :: ns in rest ==> ns in namespaces
        decreases |rest|
      {
        var ns := rest[0];
        if now >= Deadline(retryAfter, ns) {
          ghost var more;
          ghost var t, held := Now(), retryAfter;
          calls, more := Drain(ns, answers, clock, calls);
          SettledNext(t.rows, rows, held, retryAfter, rest, ns);
          AllDueMore(events, more, namespaces, old(retryAfter), now, ns);
          RunConcat(old(Now()), size, retain, events, more);
          events := events + more;
        }
        rest := rest[1..];
      }
    }

    /** One tick: unless it is too early, every namespace that is not held back is sent until
        nothing of it is left or the service is unavailable. */
    method Tick(now: nat, answers: nat -> Answer, clock: nat -> int) returns (calls: nat, ghost events: seq<Event>)
      requires Valid()
      modifies this
      ensures Valid()
      ensures Now() == RunTable(old(Now()), size, retain, events) && AllPossible(old(Now()), size, retain, events)
      ensures AllDue(events, Namespaces(old(rows)), old(retryAfter), now)
      ensures if now - old(last) >= interval || AnyFull(old(rows), Namespaces(old(rows)), old(retryAfter), now)
              then last == now && Settled(rows, retryAfter, []) else last == old(last) && events == []
    {
      calls, events := 0, [];
      var namespaces := Namespaces(rows);
      retryAfter := map ns | ns in retryAfter && ns in namespaces :: retryAfter[ns];
      AnyFullActive(rows, namespaces, old(retryAfter), retryAfter, now);
      if now - last < interval && !AnyFull(rows, namespaces, retryAfter, now) { return; }
      last := now;
      calls, events := Pass(namespaces, now, answers, clock);
    }
  }
}
