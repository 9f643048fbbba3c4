/** The function manager over its journal: admission within each function's limits, collection of
    results, and back pressure on intake. */
module Manager {
  import opened Common
  import opened InvocationJournal

  // --- Decisions ----------------------------------------------------------------------------------------

  datatype Decision = Invoke | Queue | TurnAway

  /** First come, first served: invoke below the bound, else queue, else turn away. */
  function Admit(running: int, waiting: int, slots: nat, queue: nat): Decision {
    if running < slots && waiting == 0 then Invoke else if waiting < queue then Queue else TurnAway
  }

  datatype Subscription = Subscription(source: Name, subject: Name, target: Name)

  /** The functions subscribed to this source and subject, in order and each once. */
  function RouteTo(subscriptions: seq<Subscription>, source: Name, subject: Name): (r: seq<Name>)
    ensures Ascending(r) && Distinct(r)
    ensures forall f :: f in r <==> Subscription(source, subject, f) in subscriptions
  {
    if subscriptions == [] then []
    else
      var rest := RouteTo(subscriptions[1..], source, subject);
      var s := subscriptions[0];
      if s.source == source && s.subject == subject then InsertSorted(rest, s.target) else rest
  }

  // --- One lifetime of the manager -----------------------------------------------------------------------

  datatype Limits = Limits(slots: nat, queue: nat)
  datatype Config = Config(functions: map<Name, Limits>, maxPending: nat)

  datatype Result = Result(id: nat, status: Status)
  datatype Begun = Begun(id: nat, target: Name)

  /** The journal with its history, the counters of running invocations, the results that wait to
      be collected, and what was started in this lifetime, in order. */
  datatype Life = Life(world: World, running: map<Name, int>, results: seq<Result>, started: seq<Begun>)

  datatype Happening =
    | Finish(id: nat, status: Status)                           // an invocation thread reports
    | Collect
    | Begin(id: nat)
    | Decline(id: nat, status: Status)
    | Intake(key: Key, targets: seq<Name>, acked: bool)
    | Issue(id: nat)                                             // a result is published
    | Forget(newest: nat)
    | Sweep

  function Count(running: map<Name, int>, f: Name): int { if f in running then running[f] else 0 }

  function RunningOf(t: Tables, f: Name): set<nat> {
    set i | i in t.invocations && t.invocations[i].state == Running && t.invocations[i].target == f
  }

  function PendingOf(t: Tables, f: Name): set<nat> {
    set i | i in t.invocations && t.invocations[i].state == Pending && t.invocations[i].target == f
  }

  /** No pending row of the same function comes before this one. */
  ghost predicate First(t: Tables, id: nat)
    requires id in t.invocations
  {
    forall i :: i in PendingOf(t, t.invocations[id].target) ==> id <= i
  }

  predicate Reported(results: seq<Result>, id: nat) { exists k :: 0 <= k < |results| && results[k].id == id }

  /** When each thing can happen; `First` and the room for a start are what admission must ensure. */
  ghost predicate Can(c: Config, l: Life, e: Happening) {
    var t := l.world.t;
    match e
    case Finish(id, _) => InState(t, id, {Running}) && !Reported(l.results, id)
    case Collect => l.results != [] && InState(t, l.results[0].id, {Running})
    case Begin(id) =>
      && InState(t, id, {Pending}) && First(t, id)
      && var f := t.invocations[id].target; f in c.functions && Count(l.running, f) < c.functions[f].slots
    case Decline(id, _) => InState(t, id, {Pending})
    case Intake(_, targets, _) =>
      Distinct(targets) && |Outstanding(t)| < c.maxPending && forall f :: f in targets ==> f in c.functions
    case Issue(id) => Possible(t, Publish(id))
    case Forget(newest) => Possible(t, PruneInbox(newest))
    case Sweep => true
  }

  ghost function After(c: Config, l: Life, e: Happening): Life
    requires Can(c, l, e)
  {
    var t := l.world.t;
    match e
    case Finish(id, status) => l.(results := l.results + [Result(id, status)])
    case Collect =>
      var r := l.results[0];
      var f := t.invocations[r.id].target;
      l.(world := Step(l.world, Complete(r.id, r.status)), results := l.results[1..],
         running := l.running[f := Count(l.running, f) - 1])
    case Begin(id) =>
      var f := t.invocations[id].target;
      l.(world := Step(l.world, Start(id)), running := l.running[f := Count(l.running, f) + 1],
         started := l.started + [Begun(id, f)])
    case Decline(id, status) => l.(world := Step(l.world, Complete(id, status)))
    case Intake(key, targets, acked) => l.(world := Step(l.world, Accept(key, targets, acked)))
    case Issue(id) => l.(world := Step(l.world, Publish(id)))
    case Forget(newest) => l.(world := Step(l.world, PruneInbox(newest)))
    case Sweep => l.(world := Step(l.world, PruneRows))
  }

  // --- The invariant --------------------------------------------------------------------------------------------

  /** The counters count the running rows, which only configured functions have, within their slots. */
  ghost predicate Counted(c: Config, t: Tables, running: map<Name, int>) {
    forall f :: |RunningOf(t, f)| == Count(running, f) &&
                (Count(running, f) > 0 ==> f in c.functions && Count(running, f) <= c.functions[f].slots)
  }

  ghost predicate ResultsGood(t: Tables, results: seq<Result>) {
    && (forall k :: 0 <= k < |results| ==> InState(t, results[k].id, {Running}))
    && (forall j, k :: 0 <= j < k < |results| ==> results[j].id != results[k].id)
  }

  /** Each function's rows were started in the order of their ids, and what waits comes after them. */
  ghost predicate InOrder(t: Tables, started: seq<Begun>) {
    && (forall k :: 0 <= k < |started| ==> started[k].id < t.nextId)
    && (forall j, k :: 0 <= j < k < |started| && started[j].target == started[k].target ==>
        started[j].id < started[k].id)
    && (forall i, k :: 0 <= k < |started| && i in PendingOf(t, started[k].target) ==> started[k].id < i)
  }

  ghost predicate Sound(c: Config, l: Life) {
    Good(l.world) && Counted(c, l.world.t, l.running) && ResultsGood(l.world.t, l.results) &&
        InOrder(l.world.t, l.started)
  }

  // --- Changes that start and end nothing --------------------------------------------------------------------------

  /** Running rows stay as they are; pending rows may go, and new ones have new numbers. */
  ghost predicate Quiet(t: Tables, v: Tables) {
    && t.nextId <= v.nextId
    && (forall f :: RunningOf(v, f) == RunningOf(t, f))
    && (forall f, i :: i in PendingOf(v, f) ==> i in PendingOf(t, f) || t.nextId <= i)
  }

  lemma QuietRunning(t: Tables, v: Tables, i: nat)
    requires Quiet(t, v) && InState(t, i, {Running})
    ensures InState(v, i, {Running})
  {
    assert i in RunningOf(v, t.invocations[i].target);
  }

  lemma QuietKeeps(c: Config, t: Tables, v: Tables, running: map<Name, int>, results: seq<Result>, started: seq<Begun>)
    requires Quiet(t, v) && Counted(c, t, running) && ResultsGood(t, results) && InOrder(t, started)
    ensures Counted(c, v, running) && ResultsGood(v, results) && InOrder(v, started)
  {
    forall k | 0 <= k < |results| ensures InState(v, results[k].id, {Running}) { QuietRunning(t, v, results[k].id); }
  }

  lemma AddRowQuiet(t: Tables, key: Key, f: Name)
    requires Fresh(t)
    ensures Fresh(AddRow(t, key, f)) && Quiet(t, AddRow(t, key, f))
    ensures |Outstanding(AddRow(t, key, f))| == |Outstanding(t)| + 1
  {
    var v := AddRow(t, key, f);
    assert Outstanding(v) == Outstanding(t) + {t.nextId};
    assert forall g :: RunningOf(v, g) == RunningOf(t, g);
  }

  lemma {:induction false} AddRowsQuiet(t: Tables, key: Key, targets: seq<Name>)
    requires Fresh(t)
    ensures Fresh(AddRows(t, key, targets)) && Quiet(t, AddRows(t, key, targets))
    ensures |Outstanding(AddRows(t, key, targets))| == |Outstanding(t)| + |targets|
  {
    if targets != [] {
      var init := targets[..|targets| - 1];
      AddRowsQuiet(t, key, init);
      AddRowQuiet(AddRows(t, key, init), key, targets[|targets| - 1]);
    }
  }

  lemma AcceptQuiet(w: World, key: Key, targets: seq<Name>)
    requires Good(w)
    ensures Quiet(w.t, AfterAccept(w.t, key, targets))
    ensures |Outstanding(AfterAccept(w.t, key, targets))| <= |Outstanding(w.t)| + |targets|
  {
    if Accepting(w.t, key, targets) == New {
      var u := AddMessage(w.t, key);
      AddRowsQuiet(u, key, targets);
      assert forall f :: RunningOf(u, f) == RunningOf(w.t, f);
      assert Outstanding(u) == Outstanding(w.t);
    }
  }

  lemma SettleQuiet(t: Tables, id: nat, row: Invocation)
    requires id in t.invocations && t.invocations[id].state in {Pending, Completed}
    requires row.state in {Completed, Published}
    ensures Quiet(t, AfterSet(t, id, row)) && Outstanding(AfterSet(t, id, row)) <= Outstanding(t)
    ensures forall f :: PendingOf(AfterSet(t, id, row), f) == PendingOf(t, f) - {id}
  {
    var v := AfterSet(t, id, row);
    assert forall f :: RunningOf(v, f) == RunningOf(t, f);
  }

  lemma PruneQuiet(w: World)
    requires Good(w)
    ensures Quiet(w.t, AfterPruneRows(w.t)) && Outstanding(AfterPruneRows(w.t)) <= Outstanding(w.t)
  {
    var t, v := w.t, AfterPruneRows(w.t);
    forall f ensures RunningOf(v, f) == RunningOf(t, f) {
      forall i | i in RunningOf(t, f) ensures i in RunningOf(v, f) {
        assert t.inbox[w.issued[i].message] == t.invocations[i].key;
      }
    }
  }

  // --- Starting, finishing, collecting -----------------------------------------------------------------------------

  ghost predicate Moved(t: Tables, u: Tables, f: Name) {
    && u.nextId == t.nextId && Outstanding(u) == Outstanding(t)
    && forall g :: g != f ==> RunningOf(u, g) == RunningOf(t, g) && PendingOf(u, g) == PendingOf(t, g)
  }

  lemma RowStarts(t: Tables, u: Tables, id: nat, row: Invocation, f: Name)
    requires InState(t, id, {Pending}) && u == AfterSet(t, id, row) && row.state == Running
    requires f == row.target == t.invocations[id].target
    ensures Moved(t, u, f) && id in PendingOf(t, f) && id !in RunningOf(t, f)
    ensures RunningOf(u, f) == RunningOf(t, f) + {id} && PendingOf(u, f) == PendingOf(t, f) - {id}
  {}

  lemma RowEnds(t: Tables, u: Tables, id: nat, row: Invocation, f: Name)
    requires InState(t, id, {Running}) && u == AfterSet(t, id, row) && row.state == Completed
    requires f == row.target == t.invocations[id].target
    ensures Moved(t, u, f) && id in RunningOf(t, f)
    ensures RunningOf(u, f) == RunningOf(t, f) - {id} && PendingOf(u, f) == PendingOf(t, f)
  {}

  lemma CountedMore(c: Config, t: Tables, u: Tables, running: map<Name, int>, id: nat, f: Name)
    requires Counted(c, t, running) && Moved(t, u, f) && id !in RunningOf(t, f)
    requires RunningOf(u, f) == RunningOf(t, f) + {id}
    requires f in c.functions && Count(running, f) < c.functions[f].slots
    ensures Counted(c, u, running[f := Count(running, f) + 1])
  {}

  lemma CountedLess(c: Config, t: Tables, u: Tables, running: map<Name, int>, id: nat, f: Name)
    requires Counted(c, t, running) && Moved(t, u, f) && id in RunningOf(t, f)
    requires RunningOf(u, f) == RunningOf(t, f) - {id}
    ensures Counted(c, u, running[f := Count(running, f) - 1])
  {}

  lemma InOrderMore(t: Tables, u: Tables, started: seq<Begun>, id: nat, f: Name)
    requires InOrder(t, started) && Moved(t, u, f) && id < t.nextId && id in PendingOf(t, f)
    requires (forall i :: i in PendingOf(t, f) ==> id <= i) && PendingOf(u, f) == PendingOf(t, f) - {id}
    ensures InOrder(u, started + [Begun(id, f)])
  {
    forall i, k | 0 <= k < |started| && i in PendingOf(u, started[k].target) ensures started[k].id < i {
      assert i in PendingOf(t, started[k].target);
    }
  }

  lemma InOrderSame(t: Tables, u: Tables, started: seq<Begun>, f: Name)
    requires InOrder(t, started) && Moved(t, u, f) && PendingOf(u, f) == PendingOf(t, f)
    ensures InOrder(u, started)
  {
    forall i, k | 0 <= k < |started| && i in PendingOf(u, started[k].target) ensures started[k].id < i {
      assert i in PendingOf(t, started[k].target);
    }
  }

  lemma BeginKeeps(c: Config, t: Tables, u: Tables, l: Life, id: nat, f: Name)
    requires Counted(c, t, l.running) && ResultsGood(t, l.results) && InOrder(t, l.started)
    requires InState(t, id, {Pending}) && First(t, id) && id < t.nextId && f == t.invocations[id].target
    requires f in c.functions && Count(l.running, f) < c.functions[f].slots
    requires u == AfterSet(t, id, t.invocations[id].(state := Running, attempt := t.invocations[id].attempt + 1))
    ensures Counted(c, u, l.running[f := Count(l.running, f) + 1]) && ResultsGood(u, l.results)
    ensures InOrder(u, l.started + [Begun(id, f)]) && Outstanding(u) == Outstanding(t)
  {
    RowStarts(t, u, id, u.invocations[id], f);
    CountedMore(c, t, u, l.running, id, f);
    InOrderMore(t, u, l.started, id, f);
  }

  lemma CollectKeeps(c: Config, t: Tables, u: Tables, l: Life, f: Name)
    requires Counted(c, t, l.running) && ResultsGood(t, l.results) && InOrder(t, l.started) && l.results != []
    requires f == t.invocations[l.results[0].id].target
    requires u == AfterSet(t, l.results[0].id,
                           t.invocations[l.results[0].id].(state := Completed, status := Some(l.results[0].status)))
    ensures Counted(c, u, l.running[f := Count(l.running, f) - 1]) && ResultsGood(u, l.results[1..])
    ensures InOrder(u, l.started) && Outstanding(u) == Outstanding(t)
  {
    var id := l.results[0].id;
    RowEnds(t, u, id, u.invocations[id], f);
    CountedLess(c, t, u, l.running, id, f);
    InOrderSame(t, u, l.started, f);
  }

  lemma {:induction false} DistinctFits(targets: seq<Name>, s: set<Name>)
    requires Distinct(targets) && forall f :: f in targets ==> f in s
    ensures |targets| <= |s|
  {
    if targets != [] {
      var init, last := targets[..|targets| - 1], targets[|targets| - 1];
      assert last !in init;
      DistinctFits(init, s - {last});
    }
  }

  /** Most rows that can be outstanding, starting within it. */
  function Bound(c: Config): int { c.maxPending - 1 + |c.functions| }

  /** No growth, or growth to within the bound. */
  ghost predicate Within(c: Config, t: Tables, v: Tables) {
    |Outstanding(v)| <= |Outstanding(t)| || |Outstanding(v)| <= Bound(c)
  }

  lemma IntakeQuiet(c: Config, w: World, key: Key, targets: seq<Name>, acked: bool)
    requires Good(w) && Distinct(targets) && |Outstanding(w.t)| < c.maxPending
    requires forall f :: f in targets ==> f in c.functions
    ensures Quiet(w.t, Step(w, Accept(key, targets, acked)).t) && Within(c, w.t, Step(w, Accept(key, targets, acked)).t)
    ensures |Outstanding(Step(w, Accept(key, targets, acked)).t)| <= |Outstanding(w.t)| + |c.functions|
  {
    AcceptQuiet(w, key, targets);
    RouteAllRecords(w, key, targets);
    DistinctFits(targets, c.functions.Keys);
  }

  lemma QuietHappenings(c: Config, l: Life, e: Happening)
    requires Good(l.world) && Can(c, l, e) && !e.Finish? && !e.Collect? && !e.Begin?
    ensures Quiet(l.world.t, After(c, l, e).world.t) && Within(c, l.world.t, After(c, l, e).world.t)
  {
    var t, v := l.world.t, After(c, l, e).world.t;
    match e {
      case Decline(id, status) => SettleQuiet(t, id, v.invocations[id]);
      case Intake(key, targets, acked) => IntakeQuiet(c, l.world, key, targets, acked);
      case Issue(id) => SettleQuiet(t, id, v.invocations[id]);
      case Forget(_) => assert Outstanding(v) == Outstanding(t);
      case Sweep => PruneQuiet(l.world);
    }
    if Outstanding(v) <= Outstanding(t) { SubsetSize(Outstanding(v), Outstanding(t)); }
  }

  lemma JournalKeeps(c: Config, l: Life, e: Happening)
    requires Sound(c, l) && Can(c, l, e)
    ensures Good(After(c, l, e).world)
  {
    match e
    case Finish(_, _) =>
    case Collect => StepKeeps(l.world, Complete(l.results[0].id, l.results[0].status));
    case Begin(id) => StepKeeps(l.world, Start(id));
    case Decline(id, status) => StepKeeps(l.world, Complete(id, status));
    case Intake(key, targets, acked) => StepKeeps(l.world, Accept(key, targets, acked));
    case Issue(id) => StepKeeps(l.world, Publish(id));
    case Forget(newest) => StepKeeps(l.world, PruneInbox(newest));
    case Sweep => StepKeeps(l.world, PruneRows);
  }

  lemma CollectLives(c: Config, l: Life, v: Life)
    requires Sound(c, l) && Can(c, l, Collect) && v == After(c, l, Collect)
    ensures Counted(c, v.world.t, v.running) && ResultsGood(v.world.t, v.results) && InOrder(v.world.t, v.started)
    ensures Outstanding(v.world.t) == Outstanding(l.world.t)
  {
    var t := l.world.t;
    CollectKeeps(c, t, v.world.t, l, t.invocations[l.results[0].id].target);
  }

  lemma BeginLives(c: Config, l: Life, v: Life, id: nat)
    requires Sound(c, l) && Can(c, l, Begin(id)) && v == After(c, l, Begin(id))
    ensures Counted(c, v.world.t, v.running) && ResultsGood(v.world.t, v.results) && InOrder(v.world.t, v.started)
    ensures Outstanding(v.world.t) == Outstanding(l.world.t)
  {
    var t := l.world.t;
    BeginKeeps(c, t, v.world.t, l, id, t.invocations[id].target);
  }

  lemma QuietLives(c: Config, l: Life, v: Life, e: Happening)
    requires Sound(c, l) && Can(c, l, e) && !e.Finish? && !e.Collect? && !e.Begin? && v == After(c, l, e)
    ensures Counted(c, v.world.t, v.running) && ResultsGood(v.world.t, v.results) && InOrder(v.world.t, v.started)
    ensures Within(c, l.world.t, v.world.t)
  {
    QuietHappenings(c, l, e);
    QuietKeeps(c, l.world.t, v.world.t, l.running, l.results, l.started);
  }

  /** Every happening keeps the counters, the order and the limits, and grows the backlog only below its bound. */
  lemma LifeKeeps(c: Config, l: Life, e: Happening)
    requires Sound(c, l) && Can(c, l, e)
    ensures Sound(c, After(c, l, e)) && Within(c, l.world.t, After(c, l, e).world.t)
  {
    JournalKeeps(c, l, e);
    var v := After(c, l, e);
    match e
    case Finish(_, _) =>
    case Collect => CollectLives(c, l, v);
    case Begin(id) => BeginLives(c, l, v, id);
    case _ => QuietLives(c, l, v, e);
  }

  /** A lifetime from `l` through these happenings to `v`. */
  ghost predicate Reached(c: Config, l: Life, events: seq<Happening>, v: Life)
    decreases |events|
  {
    if events == [] then v == l && Sound(c, v)
    else Can(c, l, events[0]) && Reached(c, After(c, l, events[0]), events[1..], v)
  }

  lemma {:induction false} ReachedFurther(c: Config, l: Life, events: seq<Happening>, v: Life, e: Happening)
    requires Reached(c, l, events, v) && Can(c, v, e)
    ensures Reached(c, l, events + [e], After(c, v, e))
    decreases |events|
  {
    if events == [] {
      LifeKeeps(c, v, e);
      assert (events + [e])[1..] == [] && (events + [e])[0] == e;
    } else {
      Tail(events, [e]);
      ReachedFurther(c, After(c, l, events[0]), events[1..], v, e);
    }
  }

  lemma {:induction false} ReachedSound(c: Config, l: Life, events: seq<Happening>, v: Life)
    requires Reached(c, l, events, v)
    ensures Sound(c, v)
    decreases |events|
  {
    if events != [] { ReachedSound(c, After(c, l, events[0]), events[1..], v); }
  }

  ghost predicate AllCan(c: Config, l: Life, events: seq<Happening>)
    decreases |events|
  {
    events == [] || (Can(c, l, events[0]) && AllCan(c, After(c, l, events[0]), events[1..]))
  }

  ghost function Live(c: Config, l: Life, events: seq<Happening>): Life
    requires AllCan(c, l, events)
    decreases |events|
  {
    if events == [] then l else Live(c, After(c, l, events[0]), events[1..])
  }

  /** In every reachable state of a lifetime: counters equal the running rows within the slots, starts
      are in order per function, and a backlog that starts within its bound stays there. */
  lemma {:induction false} LifetimeKeeps(c: Config, l: Life, events: seq<Happening>)
    requires Sound(c, l) && AllCan(c, l, events)
    ensures Sound(c, Live(c, l, events)) && Reached(c, l, events, Live(c, l, events))
    ensures |Outstanding(l.world.t)| <= Bound(c) ==> |Outstanding(Live(c, l, events).world.t)| <= Bound(c)
    decreases |events|
  {
    if events != [] {
      LifeKeeps(c, l, events[0]);
      LifetimeKeeps(c, After(c, l, events[0]), events[1..]);
    }
  }

  /** A lifetime begins, after a crash or not, by making running rows pending again. */
  lemma LifetimeBegins(c: Config, w: World)
    requires Good(w)
    ensures Sound(c, Life(Step(w, Recover), map[], [], []))
    ensures Outstanding(Step(w, Recover).t) == Outstanding(w.t)
  {
    StepKeeps(w, Recover);
    var t := Step(w, Recover).t;
    assert forall f :: RunningOf(t, f) == {};
  }

  // --- A dispatch pass -----------------------------------------------------------------------------------------------

  lemma {:induction false} RowIdsMeaning(t: Tables, state: State, n: nat, i: nat)
    ensures i in RowIds(t, state, n) <==> i < n && InState(t, i, {state}) && HasKey(t.inbox, t.invocations[i].key)
  {
    if n > 0 { RowIdsMeaning(t, state, n - 1, i); }
  }

  lemma {:induction false} RowIdsRise(t: Tables, state: State, n: nat)
    ensures Ascending(RowIds(t, state, n))
  {
    if n > 0 {
      RowIdsRise(t, state, n - 1);
      var before := RowIds(t, state, n - 1);
      forall k | 0 <= k < |before| ensures before[k] < n - 1 { RowIdsMeaning(t, state, n - 1, before[k]); }
    }
  }

  /** The pending rows of a function that the pass has left behind. */
  ghost function Held(t: Tables, rest: seq<nat>, f: Name): set<nat> { set i | i in PendingOf(t, f) && i !in rest }

  /** Within the queue, and only while every slot is taken. */
  ghost predicate Justified(c: Config, running: int, held: int, f: Name) {
    held > 0 ==> f in c.functions && held <= c.functions[f].queue && running >= c.functions[f].slots
  }

  ghost predicate Passing(c: Config, t: Tables, running: map<Name, int>, waiting: map<Name, int>, rest: seq<nat>) {
    && Ascending(rest) && (forall k :: 0 <= k < |rest| ==> InState(t, rest[k], {Pending}))
    && forall f :: Count(waiting, f) == |Held(t, rest, f)| && Justified(c, Count(running, f), Count(waiting, f), f)
  }

  lemma PassBegins(c: Config, w: World, running: map<Name, int>)
    requires Good(w)
    ensures Passing(c, w.t, running, map[], RowIds(w.t, Pending, w.t.nextId))
  {
    var t, rest := w.t, RowIds(w.t, Pending, w.t.nextId);
    RowIdsRise(t, Pending, t.nextId);
    forall k | 0 <= k < |rest| ensures InState(t, rest[k], {Pending}) { RowIdsMeaning(t, Pending, t.nextId, rest[k]); }
    forall f ensures Held(t, rest, f) == {} {
      forall i | i in PendingOf(t, f) ensures i in rest {
        assert t.inbox[w.issued[i].message] == t.invocations[i].key;
        RowIdsMeaning(t, Pending, t.nextId, i);
      }
    }
  }

  /** The next row is the first of its function when none of its function was left behind. */
  lemma NextIsFirst(c: Config, t: Tables, running: map<Name, int>, waiting: map<Name, int>, rest: seq<nat>)
    requires Passing(c, t, running, waiting, rest) && rest != [] && Count(waiting, t.invocations[rest[0]].target) == 0
    ensures First(t, rest[0])
  {
    var f := t.invocations[rest[0]].target;
    assert Held(t, rest, f) == {};
    forall i | i in PendingOf(t, f) ensures rest[0] <= i { assert i !in Held(t, rest, f); }
  }

  lemma PassQueues(c: Config, t: Tables, running: map<Name, int>, waiting: map<Name, int>, rest: seq<nat>, f: Name)
    requires Passing(c, t, running, waiting, rest) && rest != [] && f == t.invocations[rest[0]].target
    requires f in c.functions
    requires Admit(Count(running, f), Count(waiting, f), c.functions[f].slots, c.functions[f].queue) == Queue
    ensures Passing(c, t, running, waiting[f := Count(waiting, f) + 1], rest[1..])
  {
    var id := rest[0];
    assert id !in rest[1..];
    assert Held(t, rest[1..], f) == Held(t, rest, f) + {id};
    assert forall g :: g != f ==> Held(t, rest[1..], g) == Held(t, rest, g);
  }

  /** A row that leaves the queue leaves nothing behind. */
  lemma PassDrops(c: Config, t: Tables, u: Tables, running: map<Name, int>, after: map<Name, int>,
                  waiting: map<Name, int>, rest: seq<nat>, f: Name)
    requires Passing(c, t, running, waiting, rest) && rest != [] && f == t.invocations[rest[0]].target
    requires forall i :: i != rest[0] && InState(t, i, {Pending}) ==> InState(u, i, {Pending})
    requires forall g :: PendingOf(u, g) == PendingOf(t, g) - {rest[0]}
    requires forall g :: Count(running, g) <= Count(after, g)
    ensures Passing(c, u, after, waiting, rest[1..])
  {
    var id := rest[0];
    assert id !in rest[1..];
    assert forall g :: Held(u, rest[1..], g) == Held(t, rest, g);
  }

  /** After a pass: each function's queue is within its bound, and rows wait only while all slots are taken. */
  ghost predicate Dispatched(c: Config, t: Tables, running: map<Name, int>) {
    forall f :: PendingOf(t, f) != {} ==>
      f in c.functions && |PendingOf(t, f)| <= c.functions[f].queue && Count(running, f) == c.functions[f].slots
  }

  lemma PassEnds(c: Config, t: Tables, running: map<Name, int>, waiting: map<Name, int>)
    requires Passing(c, t, running, waiting, []) && Counted(c, t, running)
    ensures Dispatched(c, t, running)
  {
    forall f | PendingOf(t, f) != {}
      ensures f in c.functions && |PendingOf(t, f)| <= c.functions[f].queue && Count(running, f) == c.functions[f].slots
    {
      assert Held(t, [], f) == PendingOf(t, f);
    }
  }

  lemma DispatchedStays(c: Config, t: Tables, u: Tables, running: map<Name, int>)
    requires Dispatched(c, t, running) && forall f :: PendingOf(u, f) <= PendingOf(t, f)
    ensures Dispatched(c, u, running)
  {
    forall f | PendingOf(u, f) != {}
      ensures f in c.functions && |PendingOf(u, f)| <= c.functions[f].queue && Count(running, f) == c.functions[f].slots
    {
      SubsetSize(PendingOf(u, f), PendingOf(t, f));
    }
  }

  function AllRunning(t: Tables): set<nat> { set i | i in t.invocations && t.invocations[i].state == Running }

  /** What collecting a running row leaves. */
  ghost predicate CollectedFrom(t: Tables, u: Tables, id: nat) {
    id in AllRunning(t) && AllRunning(u) == AllRunning(t) - {id} && Outstanding(u) == Outstanding(t) && SameRows(t, u)
  }

  lemma EndsOne(t: Tables, id: nat, row: Invocation)
    requires InState(t, id, {Running}) && row.state == Completed
    requires row.key == t.invocations[id].key && row.target == t.invocations[id].target
    ensures CollectedFrom(t, AfterSet(t, id, row), id)
  {}

  lemma CanCollect(c: Config, l: Life, events: seq<Happening>, v: Life)
    requires Reached(c, l, events, v) && v.results != []
    ensures Can(c, v, Collect) && CollectedFrom(v.world.t, After(c, v, Collect).world.t, v.results[0].id)
  {
    ReachedSound(c, l, events, v);
    var id := v.results[0].id;
    EndsOne(v.world.t, id, After(c, v, Collect).world.t.invocations[id]);
  }

  /** In a pass, an invocation that is admitted can begin, and the pass goes on. */
  lemma PassInvokes(c: Config, l: Life, events: seq<Happening>, v: Life, waiting: map<Name, int>, rest: seq<nat>,
                    f: Name)
    requires Reached(c, l, events, v) && Passing(c, v.world.t, v.running, waiting, rest)
    requires rest != [] && f == v.world.t.invocations[rest[0]].target && f in c.functions
    requires Admit(Count(v.running, f), Count(waiting, f), c.functions[f].slots, c.functions[f].queue) == Invoke
    ensures Can(c, v, Begin(rest[0])) && var u := After(c, v, Begin(rest[0]));
            Passing(c, u.world.t, u.running, waiting, rest[1..]) && Outstanding(u.world.t) == Outstanding(v.world.t)
            && SameRows(v.world.t, u.world.t)
  {
    var t, id := v.world.t, rest[0];
    NextIsFirst(c, t, v.running, waiting, rest);
    var u := After(c, v, Begin(id));
    RowStarts(t, u.world.t, id, u.world.t.invocations[id], f);
    SetSameRows(t, id, u.world.t.invocations[id]);
    PassDrops(c, t, u.world.t, v.running, u.running, waiting, rest, f);
  }

  /** So does one that turns a row away. */
  lemma PassDeclines(c: Config, l: Life, events: seq<Happening>, v: Life, waiting: map<Name, int>, rest: seq<nat>,
                     status: Status)
    requires Reached(c, l, events, v) && Passing(c, v.world.t, v.running, waiting, rest) && rest != []
    ensures Can(c, v, Decline(rest[0], status)) && var u := After(c, v, Decline(rest[0], status));
            Passing(c, u.world.t, u.running, waiting, rest[1..]) && |Outstanding(u.world.t)| <= |Outstanding(v.world.t)|
            && SameRows(v.world.t, u.world.t)
  {
    var t, id := v.world.t, rest[0];
    var u := After(c, v, Decline(id, status)).world.t;
    SettleQuiet(t, id, u.invocations[id]);
    SetSameRows(t, id, u.invocations[id]);
    SubsetSize(Outstanding(u), Outstanding(t));
    PassDrops(c, t, u, v.running, v.running, waiting, rest, t.invocations[id].target);
  }

  lemma PassStarts(c: Config, l: Life, events: seq<Happening>, v: Life)
    requires Reached(c, l, events, v)
    ensures Passing(c, v.world.t, v.running, map[], RowIds(v.world.t, Pending, v.world.t.nextId))
  {
    ReachedSound(c, l, events, v);
    PassBegins(c, v.world, v.running);
  }

  lemma PassStops(c: Config, l: Life, events: seq<Happening>, v: Life, waiting: map<Name, int>)
    requires Reached(c, l, events, v) && Passing(c, v.world.t, v.running, waiting, [])
    ensures Dispatched(c, v.world.t, v.running)
  {
    ReachedSound(c, l, events, v);
    PassEnds(c, v.world.t, v.running, waiting);
  }

  /** Publishing and pruning keep every queue within its bound. */
  lemma IssueKeeps(c: Config, v: Life, id: nat)
    requires Can(c, v, Issue(id)) && Dispatched(c, v.world.t, v.running)
    ensures Dispatched(c, After(c, v, Issue(id)).world.t, v.running)
    ensures |Outstanding(After(c, v, Issue(id)).world.t)| <= |Outstanding(v.world.t)|
  {
    var t, u := v.world.t, After(c, v, Issue(id)).world.t;
    SettleQuiet(t, id, u.invocations[id]);
    SubsetSize(Outstanding(u), Outstanding(t));
    DispatchedStays(c, t, u, v.running);
  }

  lemma ForgetKeeps(c: Config, v: Life, newest: nat)
    requires Can(c, v, Forget(newest)) && Dispatched(c, v.world.t, v.running)
    ensures Dispatched(c, After(c, v, Forget(newest)).world.t, v.running)
    ensures Outstanding(After(c, v, Forget(newest)).world.t) == Outstanding(v.world.t)
  {
    DispatchedStays(c, v.world.t, After(c, v, Forget(newest)).world.t, v.running);
  }

  lemma SweepKeeps(c: Config, v: Life)
    requires Dispatched(c, v.world.t, v.running)
    ensures Dispatched(c, After(c, v, Sweep).world.t, v.running)
    ensures |Outstanding(After(c, v, Sweep).world.t)| <= |Outstanding(v.world.t)|
  {
    var t, u := v.world.t, After(c, v, Sweep).world.t;
    SubsetSize(Outstanding(u), Outstanding(t));
    DispatchedStays(c, t, u, v.running);
  }

  /** Both halves of a prune, one after the other. */
  lemma PruneReached(c: Config, l: Life, events: seq<Happening>, v: Life, newest: nat)
    requires Reached(c, l, events, v) && Dispatched(c, v.world.t, v.running) && Can(c, v, Forget(newest))
    ensures var u := After(c, After(c, v, Forget(newest)), Sweep);
            && Reached(c, l, events + [Forget(newest)] + [Sweep], u) && Dispatched(c, u.world.t, u.running)
            && |Outstanding(u.world.t)| <= |Outstanding(v.world.t)|
            && u == v.(world := v.world.(t := AfterPruneRows(AfterPruneInbox(v.world.t, newest))))
  {
    var a := After(c, v, Forget(newest));
    ForgetKeeps(c, v, newest);
    ReachedFurther(c, l, events, v, Forget(newest));
    SweepKeeps(c, a);
    ReachedFurther(c, l, events + [Forget(newest)], a, Sweep);
  }

  lemma SweepReached(c: Config, l: Life, events: seq<Happening>, v: Life)
    requires Reached(c, l, events, v) && Dispatched(c, v.world.t, v.running)
    ensures var u := After(c, v, Sweep);
            && Reached(c, l, events + [Sweep], u) && Dispatched(c, u.world.t, u.running)
            && |Outstanding(u.world.t)| <= |Outstanding(v.world.t)|
            && u == v.(world := v.world.(t := AfterPruneRows(v.world.t)))
  {
    SweepKeeps(c, v);
    ReachedFurther(c, l, events, v, Sweep);
  }

  lemma IntakeWithin(c: Config, l: Life, events: seq<Happening>, v: Life, key: Key, targets: seq<Name>, acked: bool)
    requires Reached(c, l, events, v) && Can(c, v, Intake(key, targets, acked))
    ensures Within(c, v.world.t, After(c, v, Intake(key, targets, acked)).world.t)
    ensures |Outstanding(After(c, v, Intake(key, targets, acked)).world.t)| <= |Outstanding(v.world.t)| + |c.functions|
    ensures After(c, v, Intake(key, targets, acked)).world.t == AfterAccept(v.world.t, key, targets)
    ensures acked && Accepting(v.world.t, key, targets) != Refused ==>
              key in After(c, v, Intake(key, targets, acked)).world.acked
  {
    ReachedSound(c, l, events, v);
    IntakeQuiet(c, v.world, key, targets, acked);
    RouteAllRecords(v.world, key, targets);
  }

  lemma RowsInState(t: Tables, state: State)
    ensures Ascending(RowIds(t, state, t.nextId))
    ensures forall k :: 0 <= k < |RowIds(t, state, t.nextId)| ==> InState(t, RowIds(t, state, t.nextId)[k], {state})
  {
    var ids := RowIds(t, state, t.nextId);
    RowIdsRise(t, state, t.nextId);
    forall k | 0 <= k < |ids| ensures InState(t, ids[k], {state}) { RowIdsMeaning(t, state, t.nextId, ids[k]); }
  }

  /** `n` added `k` times. */
  function Times(k: nat, n: nat): nat { if k == 0 then 0 else Times(k - 1, n) + n }

  // --- The manager object ------------------------------------------------------------------------------------

  /** What the broker hands over: nothing, a message without a number, one to be acknowledged
      without an invocation, or a proper one. */
  datatype Delivery = Nothing | Legacy | Malformed(id: int) | Proper(id: int, sender: Name)

  datatype Outcome = Idle | Progress | Raised

  class Manager {
    const config: Config
    const subscriptions: seq<Subscription>
    const journal: Journal
    var running: map<Name, int>
    var results: seq<Result>
    ghost var world: World
    ghost var started: seq<Begun>
    ghost const origin: Life
    ghost var trace: seq<Happening>

    ghost function Now(): Life
      reads this
    {
      Life(world, running, results, started)
    }

    /** The fields are where some lifetime of happenings from the origin leads. */
    ghost predicate Valid()
      reads this, journal
    {
      && journal.Valid() && journal.Now() == world.t && Reached(config, origin, trace, Now())
      && forall s :: s in subscriptions ==> s.target in config.functions
    }

    constructor (config: Config, subscriptions: seq<Subscription>, journal: Journal, ghost history: World)
      requires journal.Valid() && Good(history) && journal.Now() == history.t
      requires forall s :: s in subscriptions ==> s.target in config.functions
      modifies journal
      ensures Valid() && running == map[] && world == Step(history, Recover) && this.journal == journal
      ensures this.config == config && this.subscriptions == subscriptions && fresh(this)
    {
      this.config, this.subscriptions, this.journal := config, subscriptions, journal;
      running, results, world, started := map[], [], Step(history, Recover), [];
      origin, trace := Life(Step(history, Recover), map[], [], []), [];
      new;
      journal.Resume();
      LifetimeBegins(config, history);
    }

    /** An invocation thread reports its outcome. */
    method Report(id: nat, status: Status)
      requires Valid() && Can(config, Now(), Finish(id, status))
      modifies this
      ensures Valid() && Now() == After(config, old(Now()), Finish(id, status))
    {
      ReachedFurther(config, origin, trace, Now(), Finish(id, status));
      results, trace := results + [Result(id, status)], trace + [Finish(id, status)];
    }

    /** Persist one reported outcome and free its slot. */
    method CollectOne()
      requires Valid() && Can(config, Now(), Collect)
      modifies this, journal
      ensures Valid() && Now() == After(config, old(Now()), Collect)
    {
      var r := results[0];
      ReachedFurther(config, origin, trace, Now(), Collect);
      var f := journal.invocations[r.id].target;
      running := running[f := Count(running, f) - 1];
      journal.Complete(r.id, r.status);
      world, results, trace := Step(world, Complete(r.id, r.status)), results[1..], trace + [Collect];
    }

    /** Collect until nothing is reported; `late` is what threads report before each round. */
    method CollectAll(late: nat -> seq<Result>)
      requires Valid()
      modifies this, journal
      ensures Valid() && results == [] && Outstanding(world.t) == old(Outstanding(world.t))
      ensures SameRows(old(world.t), world.t)
    {
      Gather(late(0));
      var k := 0;
      while results != []
        invariant Valid() && Outstanding(world.t) == old(Outstanding(world.t)) && SameRows(old(world.t), world.t)
        decreases |AllRunning(world.t)|
      {
        CanCollect(config, origin, trace, Now());
        SameRowsOn(old(world.t), world.t, After(config, Now(), Collect).world.t);
        CollectOne();
        k := k + 1;
        Gather(late(k));
      }
    }

    /** Start a pending row that is the first of its function while a slot is free. */
    method BeginOne(id: nat)
      requires Valid() && Can(config, Now(), Begin(id))
      modifies this, journal
      ensures Valid() && Now() == After(config, old(Now()), Begin(id))
    {
      ReachedFurther(config, origin, trace, Now(), Begin(id));
      var f := journal.invocations[id].target;
      var attempt := journal.Start(id);
      running := running[f := Count(running, f) + 1];
      world, started, trace := Step(world, Start(id)), started + [Begun(id, f)], trace + [Begin(id)];
    }

    /** Complete a pending row without running it. */
    method DeclineOne(id: nat, status: Status)
      requires Valid() && Can(config, Now(), Decline(id, status))
      modifies this, journal
      ensures Valid() && Now() == After(config, old(Now()), Decline(id, status))
    {
      ReachedFurther(config, origin, trace, Now(), Decline(id, status));
      journal.Complete(id, status);
      world, trace := Step(world, Complete(id, status)), trace + [Decline(id, status)];
    }

    /** One pass over the pending rows in the order of their ids, while threads go on reporting. */
    method Dispatch(late: nat -> seq<Result>)
      requires Valid()
      modifies this, journal
      ensures Valid() && Dispatched(config, world.t, running)
      ensures |Outstanding(world.t)| <= old(|Outstanding(world.t)|) && SameRows(old(world.t), world.t)
    {
      var waiting: map<Name, int> := map[];
      var rest := RowIds(journal.Now(), Pending, journal.nextId);
      PassStarts(config, origin, trace, Now());
      while rest != []
        invariant Valid() && Passing(config, world.t, running, waiting, rest)
        invariant |Outstanding(world.t)| <= old(|Outstanding(world.t)|) && SameRows(old(world.t), world.t)
        decreases |rest|
      {
        Gather(late(|rest|));
        var id := rest[0];
        var f := journal.invocations[id].target;
        if f !in config.functions {
          PassDeclines(config, origin, trace, Now(), waiting, rest, UnknownFunction);
          DeclineOne(id, UnknownFunction);
        } else {
          match Admit(Count(running, f), Count(waiting, f), config.functions[f].slots, config.functions[f].queue)
          case Queue =>
            PassQueues(config, world.t, running, waiting, rest, f);
            waiting := waiting[f := Count(waiting, f) + 1];
          case TurnAway =>
            PassDeclines(config, origin, trace, Now(), waiting, rest, Busy);
            DeclineOne(id, Busy);
          case Invoke =>
            PassInvokes(config, origin, trace, Now(), waiting, rest, f);
            BeginOne(id);
        }
        rest := rest[1..];
      }
      PassStops(config, origin, trace, Now(), waiting);
    }

    /** Threads that finish meanwhile report; what they report is not collected yet. */
    method Gather(reports: seq<Result>)
      requires Valid()
      modifies this
      ensures Valid() && world == old(world) && running == old(running)
    {
      var rest := reports;
      while rest != []
        invariant Valid() && world == old(world) && running == old(running)
        decreases |rest|
      {
        var r := rest[0];
        if InState(journal.Now(), r.id, {Running}) && !Reported(results, r.id) { Report(r.id, r.status); }
        rest := rest[1..];
      }
    }

    /** Take in one delivery: acknowledge it only after it is recorded, or if it can have no
        invocation. A lost acknowledgement or a refused record ends the step. */
    method TakeIn(subject: Name, delivery: Delivery, lost: bool) returns (outcome: Outcome)
      requires Valid() && |Outstanding(world.t)| < config.maxPending
      modifies this, journal
      ensures Valid() && Within(config, old(world.t), world.t)
      ensures |Outstanding(world.t)| <= old(|Outstanding(world.t)|) + |config.functions|
      ensures outcome.Idle? ==> Now() == old(Now())
      ensures delivery.Proper? && outcome.Progress? ==> Key(subject, delivery.id) in world.acked
      ensures delivery.Proper? ==> world.t == AfterAccept(old(world.t), Key(subject, delivery.id),
                                                          RouteTo(subscriptions, delivery.sender, subject))
      ensures delivery.Proper? ==>
                (outcome.Raised? <==> lost || Accepting(old(world.t), Key(subject, delivery.id),
                                                        RouteTo(subscriptions, delivery.sender, subject)) == Refused)
      ensures !delivery.Proper? ==> Now() == old(Now())
    {
      match delivery
      case Nothing => outcome := Idle;
      case Legacy => outcome := Progress;
      case Malformed(_) => outcome := if lost then Raised else Progress;
      case Proper(id, sender) =>
        var key, targets := Key(subject, id), RouteTo(subscriptions, sender, subject);
        ghost var e := Intake(key, targets, !lost);
        IntakeWithin(config, origin, trace, Now(), key, targets, !lost);
        ReachedFurther(config, origin, trace, Now(), e);
        var r := journal.Accept(key, targets);
        world, trace := Step(world, Accept(key, targets, !lost)), trace + [e];
        outcome := if r == Refused || lost then Raised else Progress;
    }

    method PublishOne(id: nat)
      requires Valid() && Can(config, Now(), Issue(id))
      modifies this, journal
      ensures Valid() && Now() == After(config, old(Now()), Issue(id))
    {
      ReachedFurther(config, origin, trace, Now(), Issue(id));
      journal.MarkPublished(id);
      world, trace := Step(world, Publish(id)), trace + [Issue(id)];
    }

    /** Publish completed results in order until one cannot be delivered to its topic. */
    method PublishAll(topics: set<Name>, fails: nat -> bool)
      requires Valid() && Dispatched(config, world.t, running)
      modifies this, journal
      ensures Valid() && Dispatched(config, world.t, running) && |Outstanding(world.t)| <= old(|Outstanding(world.t)|)
    {
      var rest := RowIds(journal.Now(), Completed, journal.nextId);
      RowsInState(world.t, Completed);
      while rest != []
        invariant Valid() && Dispatched(config, world.t, running) && Ascending(rest)
        invariant forall k :: 0 <= k < |rest| ==> InState(world.t, rest[k], {Completed})
        invariant |Outstanding(world.t)| <= old(|Outstanding(world.t)|)
        decreases |rest|
      {
        var id := rest[0];
        if journal.invocations[id].target in topics && fails(id) { return; }
        IssueKeeps(config, Now(), id);
        PublishOne(id);
        rest := rest[1..];
      }
    }

    method PruneAll()
      requires Valid() && Dispatched(config, world.t, running)
      modifies this, journal
      ensures Valid() && Dispatched(config, world.t, running) && |Outstanding(world.t)| <= old(|Outstanding(world.t)|)
    {
      ghost var t := journal.Now();
      journal.Prune();
      if t.inbox == map[] {
        SweepReached(config, origin, trace, Now());
        trace := trace + [Sweep];
      } else {
        ghost var newest :| Possible(t, PruneInbox(newest)) &&
            journal.Now() == AfterPruneRows(AfterPruneInbox(t, newest));
        PruneReached(config, origin, trace, Now(), newest);
        trace := trace + [Forget(newest)] + [Sweep];
      }
      world := world.(t := journal.Now());
    }

    /** Collect, then dispatch, with what threads report during either. */
    method Settle(late: nat -> seq<Result>, later: nat -> seq<Result>)
      requires Valid()
      modifies this, journal
      ensures Valid() && Dispatched(config, world.t, running) && SameRows(old(world.t), world.t)
      ensures |Outstanding(world.t)| <= old(|Outstanding(world.t)|)
    {
      CollectAll(late);
      ghost var t := world.t;
      Dispatch(later);
      SameRowsOn(old(world.t), t, world.t);
    }

    /** This delivery would be refused. */
    ghost predicate RefusedAt(t: Tables, subject: Name, d: Delivery) {
      d.Proper? && Accepting(t, Key(subject, d.id), RouteTo(subscriptions, d.sender, subject)) == Refused
    }

    lemma SettleStays(t: Tables, u: Tables, subject: Name, d: Delivery)
      requires SameRows(t, u) && RefusedAt(t, subject, d)
      ensures RefusedAt(u, subject, d)
    {
      RefusedStill(t, u, Key(subject, d.id), RouteTo(subscriptions, d.sender, subject));
    }

    /** What another subject delivers leaves it refused. */
    lemma TurnStays(t: Tables, u: Tables, subject: Name, d: Delivery, other: Name, e: Delivery)
      requires Fresh(t) && other != subject && RefusedAt(t, subject, d)
      requires u == if e.Proper? then AfterAccept(t, Key(other, e.id), RouteTo(subscriptions, e.sender, other)) else t
      ensures RefusedAt(u, subject, d)
    {
      var key := Key(subject, d.id);
      if e.Proper? { AcceptStays(t, Key(other, e.id), RouteTo(subscriptions, e.sender, other), key); }
      RefusedStill(t, u, key, RouteTo(subscriptions, d.sender, subject));
    }

    /** The backlog leaves room for `k` messages before the bound, whatever they are routed to. */
    ghost predicate Room(t: Tables, k: nat) { |Outstanding(t)| + Times(k, |config.functions|) < config.maxPending }

    /** One subject's turn. A delivery that is refused, on this subject or another, stays refused, and
        raises when it is its turn and the backlog allows. */
    method IntakeOne(subject: Name, delivery: Delivery, lost: bool, late: nat -> seq<Result>, later: nat -> seq<Result>,
                     ghost other: Name, ghost refused: Delivery) returns (r: Outcome)
      requires Valid() && Dispatched(config, world.t, running) && (other == subject ==> refused == delivery)
      modifies this, journal
      ensures Valid() && (!r.Raised? ==> Dispatched(config, world.t, running)) && Within(config, old(world.t), world.t)
      ensures |Outstanding(world.t)| <= old(|Outstanding(world.t)|) + |config.functions|
      ensures RefusedAt(old(world.t), other, refused) ==> RefusedAt(world.t, other, refused)
      ensures RefusedAt(old(world.t), subject, delivery) && old(|Outstanding(world.t)|) < config.maxPending ==>
                r.Raised?
    {
      r := Idle;
      if |Outstanding(journal.Now())| < config.maxPending {
        r := TakeIn(subject, delivery, lost);
        if RefusedAt(old(world.t), other, refused) && other != subject {
          TurnStays(old(world.t), world.t, other, refused, subject, delivery);
        }
        if r.Progress? {
          ghost var t := world.t;
          Settle(late, later);
          if RefusedAt(t, other, refused) { SettleStays(t, world.t, other, refused); }
        }
      }
    }

    /** Take in at most one message a subject, each followed by another pass. Wherever a refused
        delivery stands (`at`), the loop raises no later than there, if the backlog lets it get there. */
    method IntakeAll(subjects: seq<Name>, deliver: nat -> Delivery, lost: nat -> bool,
                     late: nat -> nat -> seq<Result>, later: nat -> nat -> seq<Result>, ghost at: nat)
      returns (outcome: Outcome)
      requires Valid() && Dispatched(config, world.t, running) && Distinct(subjects)
      modifies this, journal
      ensures Valid() && (!outcome.Raised? ==> Dispatched(config, world.t, running))
      ensures Within(config, old(world.t), world.t)
      ensures at < |subjects| && RefusedAt(old(world.t), subjects[at], deliver(at)) && Room(old(world.t), at) ==>
                outcome.Raised? && RefusedAt(world.t, subjects[at], deliver(at))
    {
      outcome := Idle;
      ghost var stuck := at < |subjects| && RefusedAt(world.t, subjects[at], deliver(at)) && Room(world.t, at);
      ghost var n, most := |config.functions|, |Outstanding(world.t)|;
      var k := 0;
      while k < |subjects|
        invariant k <= |subjects| && Valid() && Dispatched(config, world.t, running) && !outcome.Raised?
        invariant Within(config, old(world.t), world.t)
        invariant |Outstanding(world.t)| <= most && most == old(|Outstanding(world.t)|) + Times(k, n)
        invariant stuck ==> k <= at && RefusedAt(world.t, subjects[at], deliver(at))
      {
        ghost var j := if stuck then at else k;
        assert stuck && k == at ==> |Outstanding(world.t)| < config.maxPending;
        var r := IntakeOne(subjects[k], deliver(k), lost(k), late(k + 1), later(k + 1), subjects[j], deliver(j));
        if r.Raised? { return r; }
        if r.Progress? { outcome := Progress; }
        assert Times(k + 1, n) == Times(k, n) + n;
        k, most := k + 1, most + n;
      }
    }

    /** Collect and dispatch, take in messages while the backlog allows, then publish and, when due,
        prune. A step that is handed a refused delivery raises before it prunes and leaves it refused. */
    method StepOnce(subjects: seq<Name>, deliver: nat -> Delivery, lost: nat -> bool,
                    late: nat -> nat -> seq<Result>, later: nat -> nat -> seq<Result>,
                    topics: set<Name>, fails: nat -> bool, prune: bool, ghost at: nat) returns (outcome: Outcome)
      requires Valid() && Distinct(subjects)
      modifies this, journal
      ensures Valid() && (!outcome.Raised? ==> Dispatched(config, world.t, running))
      ensures Within(config, old(world.t), world.t)
      ensures at < |subjects| && RefusedAt(old(world.t), subjects[at], deliver(at)) && Room(old(world.t), at) ==>
                outcome.Raised? && RefusedAt(world.t, subjects[at], deliver(at))
    {
      Settle(late(0), later(0));
      if at < |subjects| && RefusedAt(old(world.t), subjects[at], deliver(at)) {
        SettleStays(old(world.t), world.t, subjects[at], deliver(at));
      }
      outcome := IntakeAll(subjects, deliver, lost, late, later, at);
      if outcome.Raised? { return; }
      PublishAll(topics, fails);
      if prune { PruneAll(); }
    }
  }
}
