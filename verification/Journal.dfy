/** The function manager's durable journal: accepted messages and one invocation row per routed
    function, through acceptance, execution, publication, pruning and recovery after a crash. */
module InvocationJournal {
  import opened Common

  const DEDUPE_WINDOW := 10000

  /** Function and subject names are only compared with each other. */
  type Name = nat

  /** A message is known by its subject and its number there. */
  datatype Key = Key(subject: Name, id: int)

  datatype State = Pending | Running | Completed | Published

  datatype Status = Ok | Failed | Timeout | Busy | Crashed | InvalidResponse | UnsupportedVersion
                  | SpawnFailed | UnknownFunction | ResultTooLarge

  datatype Invocation = Invocation(key: Key, target: Name, state: State, attempt: nat, status: Option<Status>)

  /** The tables by row number, with the number that each hands out next. */
  datatype Tables = Tables(inbox: map<nat, Key>, nextSeq: nat, invocations: map<nat, Invocation>, nextId: nat)

  // --- The statements ---------------------------------------------------------------------------------

  predicate HasKey(inbox: map<nat, Key>, key: Key) { exists s :: s in inbox && inbox[s] == key }

  predicate HasRow(invocations: map<nat, Invocation>, key: Key, f: Name) {
    exists i :: i in invocations && invocations[i].key == key && invocations[i].target == f
  }

  predicate Unfinished(invocations: map<nat, Invocation>, key: Key) {
    exists i :: i in invocations && invocations[i].key == key && invocations[i].state != Published
  }

  /** A row that the uniqueness of (key, function) would refuse. */
  predicate Clashes(invocations: map<nat, Invocation>, key: Key, targets: seq<Name>) {
    exists f :: f in targets && HasRow(invocations, key, f)
  }

  function AddMessage(t: Tables, key: Key): Tables { t.(inbox := t.inbox[t.nextSeq := key], nextSeq := t.nextSeq + 1) }

  function AddRow(t: Tables, key: Key, f: Name): Tables {
    t.(invocations := t.invocations[t.nextId := Invocation(key, f, Pending, 0, None)], nextId := t.nextId + 1)
  }

  function AddRows(t: Tables, key: Key, targets: seq<Name>): Tables {
    if targets == [] then t else AddRow(AddRows(t, key, targets[..|targets| - 1]), key, targets[|targets| - 1])
  }

  datatype Acceptance = New | Duplicate | Refused

  function Accepting(t: Tables, key: Key, targets: seq<Name>): Acceptance {
    if HasKey(t.inbox, key) then Duplicate else if Clashes(t.invocations, key, targets) then Refused else New
  }

  function AfterAccept(t: Tables, key: Key, targets: seq<Name>): Tables {
    if Accepting(t, key, targets) == New then AddRows(AddMessage(t, key), key, targets) else t
  }

  function AfterSet(t: Tables, id: nat, row: Invocation): Tables { t.(invocations := t.invocations[id := row]) }

  function AfterRecover(t: Tables): Tables {
    t.(invocations := map i | i in t.invocations ::
      if t.invocations[i].state == Running then t.invocations[i].(state := Pending) else t.invocations[i])
  }

  /** The first of the two statements of a pruning: old messages with nothing left to publish. */
  function AfterPruneInbox(t: Tables, newest: nat): Tables {
    t.(inbox := map s | s in t.inbox &&
        (s > newest - DEDUPE_WINDOW || Unfinished(t.invocations, t.inbox[s])) :: t.inbox[s])
  }

  /** The second: rows whose message is gone. A crash may come between the two. */
  function AfterPruneRows(t: Tables): Tables {
    t.(invocations := map i | i in t.invocations && HasKey(t.inbox, t.invocations[i].key) :: t.invocations[i])
  }

  // --- Runs and what they remember ------------------------------------------------------------------------

  datatype Accepted = Accepted(key: Key, targets: seq<Name>)
  datatype Issued = Issued(message: nat, target: Name)

  /** The tables; every message ever recorded and every row ever issued, by number; the rows ever
      published; and the keys ever acknowledged to the broker. */
  datatype World = World(t: Tables, accepted: seq<Accepted>, issued: seq<Issued>, published: set<nat>, acked: set<Key>)

  datatype Event =
    | Accept(key: Key, targets: seq<Name>, acked: bool)   // not acknowledged: a crash came first
    | Start(id: nat)
    | Complete(id: nat, status: Status)
    | Publish(id: nat)
    | PruneInbox(newest: nat)
    | PruneRows
    | Recover

  predicate Distinct(targets: seq<Name>) { forall i, j :: 0 <= i < j < |targets| ==> targets[i] != targets[j] }

  predicate InState(t: Tables, id: nat, states: set<State>) { id in t.invocations && t.invocations[id].state in states }

  /** What the manager does next is one of these, and nothing else writes the journal. */
  predicate Possible(t: Tables, e: Event) {
    match e
    case Accept(_, targets, _) => Distinct(targets)
    case Start(id) => InState(t, id, {Pending})
    case Complete(id, _) => InState(t, id, {Pending, Running})
    case Publish(id) => InState(t, id, {Completed})
    case PruneInbox(newest) => newest in t.inbox && forall s :: s in t.inbox ==> s <= newest
    case PruneRows => true
    case Recover => true
  }

  function StepTables(t: Tables, e: Event): Tables
    requires Possible(t, e)
  {
    match e
    case Accept(key, targets, _) => AfterAccept(t, key, targets)
    case Start(id) =>
      var row := t.invocations[id];
      AfterSet(t, id, row.(state := Running, attempt := row.attempt + 1))
    case Complete(id, status) => AfterSet(t, id, t.invocations[id].(state := Completed, status := Some(status)))
    case Publish(id) => AfterSet(t, id, t.invocations[id].(state := Published))
    case PruneInbox(newest) => AfterPruneInbox(t, newest)
    case PruneRows => AfterPruneRows(t)
    case Recover => AfterRecover(t)
  }

  function Record(w: World, key: Key): World {
    w.(t := AddMessage(w.t, key), accepted := w.accepted + [Accepted(key, [])])
  }

  /** One more row for the message recorded last. */
  function Route(w: World, f: Name): World
    requires w.accepted != []
  {
    var last := w.accepted[|w.accepted| - 1];
    w.(t := AddRow(w.t, last.key, f), issued := w.issued + [Issued(|w.accepted| - 1, f)],
       accepted := w.accepted[..|w.accepted| - 1] + [Accepted(last.key, last.targets + [f])])
  }

  function RouteAll(w: World, key: Key, targets: seq<Name>): (v: World)
    ensures |v.accepted| == |w.accepted| + 1
  {
    if targets == [] then Record(w, key)
    else Route(RouteAll(w, key, targets[..|targets| - 1]), targets[|targets| - 1])
  }

  function Step(w: World, e: Event): World
    requires Possible(w.t, e)
  {
    var t := StepTables(w.t, e);
    match e
    case Accept(key, targets, acked) =>
      var known := if acked then w.acked + {key} else w.acked;
      (match Accepting(w.t, key, targets)
       case Refused => w
       case Duplicate => w.(acked := known)
       case New => RouteAll(w, key, targets).(acked := known))
    case Publish(id) => w.(t := t, published := w.published + {id})
    case _ => w.(t := t)
  }

  // --- The invariant ------------------------------------------------------------------------------------------

  /** Message rows carry what was accepted under their number; no key twice; the newest are all there. */
  ghost predicate InboxGood(inbox: map<nat, Key>, accepted: seq<Accepted>) {
    && (forall s :: s in inbox ==> s < |accepted| && inbox[s] == accepted[s].key)
    && (forall s, r :: s in inbox && r in inbox && inbox[s] == inbox[r] ==> s == r)
    && (forall s: nat :: |accepted| - DEDUPE_WINDOW <= s < |accepted| ==> s in inbox)
  }

  /** Invocation rows carry what was issued under their number. */
  ghost predicate RowsMatch(invocations: map<nat, Invocation>, accepted: seq<Accepted>, issued: seq<Issued>) {
    && (forall i :: 0 <= i < |issued| ==> issued[i].message < |accepted|)
    && forall i :: i in invocations ==> i < |issued| && invocations[i].target == issued[i].target &&
                                        invocations[i].key == accepted[issued[i].message].key
  }

  /** (key, function) is unique among the rows. */
  ghost predicate RowsUnique(invocations: map<nat, Invocation>) {
    forall i, j :: (i in invocations && j in invocations && invocations[i].key == invocations[j].key &&
                    invocations[i].target == invocations[j].target) ==> i == j
  }

  /** A row issued is there, or was published; it is marked published if it was. */
  ghost predicate NoneLost(invocations: map<nat, Invocation>, issued: seq<Issued>, published: set<nat>) {
    && (forall i :: 0 <= i < |issued| ==> i in invocations || i in published)
    && (forall i :: i in published ==> i < |issued|)
    && forall i :: i in invocations ==> (i in published <==> invocations[i].state == Published)
  }

  /** Unpublished rows have their message, and a message has all its rows. */
  ghost predicate Joined(inbox: map<nat, Key>, invocations: map<nat, Invocation>, issued: seq<Issued>) {
    && (forall i :: i in invocations && i < |issued| && invocations[i].state != Published ==>
        issued[i].message in inbox)
    && (forall i :: 0 <= i < |issued| && issued[i].message in inbox ==> i in invocations)
  }

  ghost predicate IssuedTo(issued: seq<Issued>, s: nat, f: Name) {
    exists i :: 0 <= i < |issued| && issued[i] == Issued(s, f)
  }

  /** Every accepted message was issued one row per target, and no other. */
  ghost predicate Routed(accepted: seq<Accepted>, issued: seq<Issued>) {
    && (forall i, j :: 0 <= i < j < |issued| ==> issued[i] != issued[j])
    && forall s, f :: 0 <= s < |accepted| ==> (f in accepted[s].targets <==> IssuedTo(issued, s, f))
  }

  ghost predicate Recorded(accepted: seq<Accepted>, key: Key) {
    exists s :: 0 <= s < |accepted| && accepted[s].key == key
  }

  ghost predicate Good(w: World) {
    && w.t.nextSeq == |w.accepted| && w.t.nextId == |w.issued|
    && InboxGood(w.t.inbox, w.accepted)
    && RowsMatch(w.t.invocations, w.accepted, w.issued)
    && RowsUnique(w.t.invocations)
    && NoneLost(w.t.invocations, w.issued, w.published)
    && Joined(w.t.inbox, w.t.invocations, w.issued)
    && Routed(w.accepted, w.issued)
    && forall k :: k in w.acked ==> Recorded(w.accepted, k)
  }

  // --- Every step keeps it ----------------------------------------------------------------------------------------

  lemma KeysKept(a: seq<Accepted>, b: seq<Accepted>, acked: set<Key>)
    requires forall k :: k in acked ==> Recorded(a, k)
    requires |a| <= |b| && forall s :: 0 <= s < |a| ==> b[s].key == a[s].key
    ensures forall k :: k in acked ==> Recorded(b, k)
  {
    forall k | k in acked ensures Recorded(b, k) {
      var s :| 0 <= s < |a| && a[s].key == k;
      assert b[s].key == k;
    }
  }

  lemma RecordIssues(a: seq<Accepted>, issued: seq<Issued>, key: Key)
    requires Routed(a, issued) && forall i :: 0 <= i < |issued| ==> issued[i].message < |a|
    ensures Routed(a + [Accepted(key, [])], issued)
  {
    var b := a + [Accepted(key, [])];
    forall s, f | 0 <= s < |b| ensures f in b[s].targets <==> IssuedTo(issued, s, f) {
      if s < |a| { assert b[s] == a[s]; }
    }
  }

  lemma RecordInbox(inbox: map<nat, Key>, a: seq<Accepted>, key: Key)
    requires InboxGood(inbox, a) && !HasKey(inbox, key)
    ensures InboxGood(inbox[|a| := key], a + [Accepted(key, [])])
  {}

  lemma RecordKeeps(w: World, key: Key)
    requires Good(w) && !HasKey(w.t.inbox, key)
    ensures Good(Record(w, key))
  {
    var v := Record(w, key);
    KeysKept(w.accepted, v.accepted, w.acked);
    RecordIssues(w.accepted, w.issued, key);
    RecordInbox(w.t.inbox, w.accepted, key);
  }

  lemma RouteIssues(a: seq<Accepted>, b: seq<Accepted>, issued: seq<Issued>, f: Name)
    requires a != [] && Routed(a, issued) && !IssuedTo(issued, |a| - 1, f)
    requires b == a[..|a| - 1] + [Accepted(a[|a| - 1].key, a[|a| - 1].targets + [f])]
    ensures Routed(b, issued + [Issued(|a| - 1, f)])
  {
    var more := issued + [Issued(|a| - 1, f)];
    assert more[|issued|] == Issued(|a| - 1, f);
    forall s, g | 0 <= s < |b| ensures g in b[s].targets <==> IssuedTo(more, s, g) {
      if IssuedTo(issued, s, g) {
        var i :| 0 <= i < |issued| && issued[i] == Issued(s, g);
        assert more[i] == Issued(s, g);
      }
      assert g in a[s].targets <==> IssuedTo(issued, s, g);
    }
  }

  lemma RouteRows(w: World, v: World, f: Name, key: Key)
    requires Good(w) && w.accepted != [] && key == w.accepted[|w.accepted| - 1].key && !HasRow(w.t.invocations, key, f)
    requires v == Route(w, f)
    ensures RowsMatch(v.t.invocations, v.accepted, v.issued) && RowsUnique(v.t.invocations)
  {
    AddsOneRow(w.t.invocations, w.t.nextId, Invocation(key, f, Pending, 0, None));
    assert forall s :: 0 <= s < |w.accepted| ==> v.accepted[s].key == w.accepted[s].key;
  }

  lemma AddsOneRow(rows: map<nat, Invocation>, id: nat, row: Invocation)
    requires RowsUnique(rows) && !HasRow(rows, row.key, row.target)
    ensures RowsUnique(rows[id := row])
  {}

  lemma RouteJoined(w: World, v: World, f: Name)
    requires Good(w) && w.accepted != [] && v == Route(w, f)
    ensures NoneLost(v.t.invocations, v.issued, v.published) && Joined(v.t.inbox, v.t.invocations, v.issued)
  {
    assert |w.accepted| - 1 in w.t.inbox;
  }

  lemma IssuedHasRow(w: World, f: Name)
    requires Good(w) && w.accepted != []
    ensures IssuedTo(w.issued, |w.accepted| - 1, f) ==> HasRow(w.t.invocations, w.accepted[|w.accepted| - 1].key, f)
  {
    if IssuedTo(w.issued, |w.accepted| - 1, f) {
      var i :| 0 <= i < |w.issued| && w.issued[i] == Issued(|w.accepted| - 1, f);
      assert w.t.invocations[i].target == f;
    }
  }

  lemma RouteInbox(inbox: map<nat, Key>, a: seq<Accepted>, b: seq<Accepted>)
    requires InboxGood(inbox, a) && |a| == |b| && forall s :: 0 <= s < |a| ==> b[s].key == a[s].key
    ensures InboxGood(inbox, b)
  {}

  lemma RouteHistory(w: World, v: World, f: Name)
    requires Good(w) && w.accepted != [] && v == Route(w, f)
    ensures InboxGood(v.t.inbox, v.accepted) && forall k :: k in v.acked ==> Recorded(v.accepted, k)
  {
    KeysKept(w.accepted, v.accepted, w.acked);
    RouteInbox(w.t.inbox, w.accepted, v.accepted);
  }

  lemma RouteRouted(w: World, v: World, f: Name)
    requires Good(w) && w.accepted != [] && v == Route(w, f)
    requires !HasRow(w.t.invocations, w.accepted[|w.accepted| - 1].key, f)
    ensures Routed(v.accepted, v.issued)
  {
    IssuedHasRow(w, f);
    RouteIssues(w.accepted, v.accepted, w.issued, f);
  }

  lemma RouteKeeps(w: World, f: Name, key: Key)
    requires Good(w) && w.accepted != [] && key == w.accepted[|w.accepted| - 1].key && !HasRow(w.t.invocations, key, f)
    ensures Good(Route(w, f))
  {
    var v := Route(w, f);
    RouteHistory(w, v, f);
    RouteRouted(w, v, f);
    RouteRows(w, v, f, key);
    RouteJoined(w, v, f);
  }

  lemma RouteHasRow(u: World, f: Name, key: Key, targets: seq<Name>, rows: map<nat, Invocation>)
    requires u.accepted != [] && forall g :: HasRow(u.t.invocations, key, g) ==> g in targets || HasRow(rows, key, g)
    ensures forall g :: HasRow(Route(u, f).t.invocations, key, g) ==> g in targets + [f] || HasRow(rows, key, g)
  {
    forall g | HasRow(Route(u, f).t.invocations, key, g) ensures g in targets + [f] || HasRow(rows, key, g) {
      if g != f {
        assert HasRow(u.t.invocations, key, g);
      }
    }
  }

  /** Accepting records the message with exactly its targets. */
  lemma {:induction false} RouteAllRecords(w: World, key: Key, targets: seq<Name>)
    ensures RouteAll(w, key, targets).accepted == w.accepted + [Accepted(key, targets)]
    ensures RouteAll(w, key, targets).t == AddRows(AddMessage(w.t, key), key, targets)
    ensures RouteAll(w, key, targets).published == w.published && RouteAll(w, key, targets).acked == w.acked
    ensures w.issued <= RouteAll(w, key, targets).issued
  {
    if targets != [] {
      var init := targets[..|targets| - 1];
      RouteAllRecords(w, key, init);
      assert init + [targets[|targets| - 1]] == targets;
    }
  }

  lemma {:induction false} RouteAllGood(w: World, key: Key, targets: seq<Name>)
    requires Good(w) && Distinct(targets) && !HasKey(w.t.inbox, key) && !Clashes(w.t.invocations, key, targets)
    ensures Good(RouteAll(w, key, targets))
    ensures forall f :: HasRow(RouteAll(w, key, targets).t.invocations, key, f) ==>
              f in targets || HasRow(w.t.invocations, key, f)
  {
    if targets == [] {
      RecordKeeps(w, key);
    } else {
      var init, f := targets[..|targets| - 1], targets[|targets| - 1];
      assert !Clashes(w.t.invocations, key, init) && f !in init && f in targets;
      RouteAllGood(w, key, init);
      RouteAllRecords(w, key, init);
      assert init + [f] == targets;
      RouteGood(w, RouteAll(w, key, init), key, init, f);
    }
  }

  lemma RouteGood(w: World, u: World, key: Key, init: seq<Name>, f: Name)
    requires Good(u) && u.accepted == w.accepted + [Accepted(key, init)] && f !in init
    requires !HasRow(w.t.invocations, key, f)
    requires forall g :: HasRow(u.t.invocations, key, g) ==> g in init || HasRow(w.t.invocations, key, g)
    ensures Good(Route(u, f))
    ensures forall g :: HasRow(Route(u, f).t.invocations, key, g) ==> g in init + [f] || HasRow(w.t.invocations, key, g)
  {
    RouteKeeps(u, f, key);
    RouteHasRow(u, f, key, init, w.t.invocations);
  }

  lemma AckKeeps(w: World, key: Key)
    requires Good(w) && Recorded(w.accepted, key)
    ensures Good(w.(acked := w.acked + {key}))
  {}

  lemma AcceptKeeps(w: World, key: Key, targets: seq<Name>, acked: bool)
    requires Good(w) && Distinct(targets)
    ensures Good(Step(w, Accept(key, targets, acked)))
  {
    match Accepting(w.t, key, targets)
    case Refused =>
    case Duplicate =>
      var s :| s in w.t.inbox && w.t.inbox[s] == key;
      assert w.accepted[s].key == key;
      AckKeeps(w, key);
    case New =>
      RouteAllGood(w, key, targets);
      RouteAllRecords(w, key, targets);
      var v := RouteAll(w, key, targets);
      assert v.accepted[|w.accepted|].key == key;
      AckKeeps(v, key);
      assert v.(acked := v.acked) == v;
  }

  /** A row keeps its place whatever its state. */
  lemma SetRows(w: World, id: nat, row: Invocation)
    requires Good(w) && id in w.t.invocations && row.key == w.t.invocations[id].key
    requires row.target == w.t.invocations[id].target
    ensures RowsMatch(w.t.invocations[id := row], w.accepted, w.issued) && RowsUnique(w.t.invocations[id := row])
  {}

  lemma SetStates(w: World, id: nat, row: Invocation, published: set<nat>)
    requires Good(w) && id in w.t.invocations && w.t.invocations[id].state != Published
    requires published == if row.state == Published then w.published + {id} else w.published
    ensures NoneLost(w.t.invocations[id := row], w.issued, published)
    ensures Joined(w.t.inbox, w.t.invocations[id := row], w.issued)
  {}

  lemma SetKeeps(w: World, v: World, e: Event)
    requires Good(w) && Possible(w.t, e) && (e.Start? || e.Complete? || e.Publish?) && v == Step(w, e)
    ensures Good(v)
  {
    SetRows(w, e.id, v.t.invocations[e.id]);
    SetStates(w, e.id, v.t.invocations[e.id], v.published);
  }

  ghost predicate Reset(before: map<nat, Invocation>, after: map<nat, Invocation>) {
    && after.Keys == before.Keys
    && forall i :: i in before ==> after[i].key == before[i].key && after[i].target == before[i].target &&
                                   (after[i].state == Published <==> before[i].state == Published)
  }

  lemma ResetKeeps(w: World, rows: map<nat, Invocation>)
    requires Good(w) && Reset(w.t.invocations, rows)
    ensures RowsMatch(rows, w.accepted, w.issued) && RowsUnique(rows) && NoneLost(rows, w.issued, w.published)
    ensures Joined(w.t.inbox, rows, w.issued)
  {}

  lemma RecoverKeeps(w: World, v: World)
    requires Good(w) && v == Step(w, Recover)
    ensures Good(v)
  {
    ResetKeeps(w, v.t.invocations);
  }

  lemma PruneInboxKeeps(w: World, v: World, newest: nat)
    requires Good(w) && Possible(w.t, PruneInbox(newest)) && v == Step(w, PruneInbox(newest))
    ensures Good(v)
  {}

  lemma PruneRowsKeeps(w: World, v: World)
    requires Good(w) && v == Step(w, PruneRows)
    ensures Good(v)
  {}

  lemma StepKeeps(w: World, e: Event)
    requires Good(w) && Possible(w.t, e)
    ensures Good(Step(w, e))
  {
    var v := Step(w, e);
    match e
    case Accept(key, targets, acked) => AcceptKeeps(w, key, targets, acked);
    case Start(_) => SetKeeps(w, v, e);
    case Complete(_, _) => SetKeeps(w, v, e);
    case Publish(_) => SetKeeps(w, v, e);
    case PruneInbox(newest) => PruneInboxKeeps(w, v, newest);
    case PruneRows => PruneRowsKeeps(w, v);
    case Recover => RecoverKeeps(w, v);
  }

  // --- What it promises over every run -----------------------------------------------------------------------

  ghost predicate AllPossible(w: World, events: seq<Event>)
    decreases |events|
  {
    events == [] || (Possible(w.t, events[0]) && AllPossible(Step(w, events[0]), events[1..]))
  }

  ghost function Run(w: World, events: seq<Event>): World
    requires AllPossible(w, events)
    decreases |events|
  {
    if events == [] then w else Run(Step(w, events[0]), events[1..])
  }

  /** Nothing remembered is forgotten or rewritten. */
  ghost predicate Grows(w: World, v: World) {
    w.accepted <= v.accepted && w.issued <= v.issued && w.published <= v.published && w.acked <= v.acked
  }

  lemma StepGrows(w: World, e: Event)
    requires Good(w) && Possible(w.t, e)
    ensures Grows(w, Step(w, e))
  {
    if e.Accept? && Accepting(w.t, e.key, e.targets) == New {
      RouteAllRecords(w, e.key, e.targets);
    }
  }

  lemma {:induction false} RunKeeps(w: World, events: seq<Event>)
    requires Good(w) && AllPossible(w, events)
    ensures Good(Run(w, events)) && Grows(w, Run(w, events))
    decreases |events|
  {
    if events != [] {
      StepKeeps(w, events[0]);
      StepGrows(w, events[0]);
      RunKeeps(Step(w, events[0]), events[1..]);
    }
  }

  const BEGINNING := World(Tables(map[], 0, map[], 0), [], [], {}, {})

  /** After every run of the journal from its creation: see `Good`. */
  lemma EveryRunIsGood(events: seq<Event>)
    requires AllPossible(BEGINNING, events)
    ensures Good(Run(BEGINNING, events))
  {
    RunKeeps(BEGINNING, events);
  }

  ghost predicate IsRowFor(w: World, i: nat, key: Key, f: Name) {
    i in w.t.invocations && w.t.invocations[i].key == key && w.t.invocations[i].target == f
  }

  /** A retained message has exactly one row for each function it was routed to. */
  lemma ExactlyOneRow(w: World, s: nat, f: Name) returns (i: nat)
    requires Good(w) && s in w.t.inbox && f in w.accepted[s].targets
    ensures IsRowFor(w, i, w.t.inbox[s], f) && forall j :: IsRowFor(w, j, w.t.inbox[s], f) ==> j == i
  {
    assert IssuedTo(w.issued, s, f);
    i :| 0 <= i < |w.issued| && w.issued[i] == Issued(s, f);
  }

  /** An acknowledged message was recorded, and each function it was routed to, and no other, has had
      one row for it and no second, which is published or still there together with its message. */
  lemma AcknowledgedIsHandled(w: World, key: Key) returns (s: nat)
    requires Good(w) && key in w.acked
    ensures s < |w.accepted| && w.accepted[s].key == key
    ensures forall f :: f in w.accepted[s].targets <==> IssuedTo(w.issued, s, f)
    ensures forall i, j :: 0 <= i < j < |w.issued| && w.issued[i].message == s ==> w.issued[i] != w.issued[j]
    ensures forall i :: 0 <= i < |w.issued| && w.issued[i].message == s ==>
              i in w.published || (i in w.t.invocations && s in w.t.inbox)
  {
    s :| 0 <= s < |w.accepted| && w.accepted[s].key == key;
  }

  /** An unpublished row is never lost: at the end of any run it is there, joined to its message, or was published. */
  lemma NeverLost(w: World, events: seq<Event>, i: nat)
    requires Good(w) && AllPossible(w, events) && i in w.t.invocations
    ensures var v := Run(w, events);
            i in v.published || (IsRowFor(v, i, w.t.invocations[i].key, w.t.invocations[i].target) &&
                                 HasKey(v.t.inbox, w.t.invocations[i].key))
  {
    RunKeeps(w, events);
    var v := Run(w, events);
    assert v.issued[i] == w.issued[i];
    var s := w.issued[i].message;
    assert v.accepted[s] == w.accepted[s];
    if i !in v.published { assert v.t.inbox[s] == w.accepted[s].key; }
  }

  /** A redelivery is recognised while its message is among the newest or has anything unpublished. */
  lemma RedeliveryIsDuplicate(w: World, s: nat, targets: seq<Name>)
    requires Good(w) && s < |w.accepted|
    requires |w.accepted| - DEDUPE_WINDOW <= s || Unfinished(w.t.invocations, w.accepted[s].key)
    ensures Accepting(w.t, w.accepted[s].key, targets) == Duplicate
    ensures AfterAccept(w.t, w.accepted[s].key, targets) == w.t
  {
    var key := w.accepted[s].key;
    if |w.accepted| - DEDUPE_WINDOW <= s {
      assert w.t.inbox[s] == key;
    } else {
      var i :| i in w.t.invocations && w.t.invocations[i].key == key && w.t.invocations[i].state != Published;
      assert w.t.inbox[w.issued[i].message] == key;
    }
  }

  ghost predicate NoOrphans(t: Tables) { forall i :: i in t.invocations ==> HasKey(t.inbox, t.invocations[i].key) }

  /** A delivery is refused, and then not acknowledged, exactly when its key is gone from the inbox
      and a published row of a target was left behind. */
  lemma RefusedExactly(w: World, key: Key, targets: seq<Name>)
    requires Good(w)
    ensures Accepting(w.t, key, targets) == Refused <==>
              !HasKey(w.t.inbox, key) &&
              exists i :: i in w.t.invocations && w.t.invocations[i].state == Published &&
                          w.t.invocations[i].key == key && w.t.invocations[i].target in targets
  {
    if Accepting(w.t, key, targets) == Refused {
      var f :| f in targets && HasRow(w.t.invocations, key, f);
      var i :| i in w.t.invocations && w.t.invocations[i].key == key && w.t.invocations[i].target == f;
    }
    if i :| i in w.t.invocations && w.t.invocations[i].key == key && w.t.invocations[i].target in targets {
      assert HasRow(w.t.invocations, key, w.t.invocations[i].target);
    }
  }

  lemma {:induction false} AddRowsJoined(t: Tables, key: Key, targets: seq<Name>)
    requires NoOrphans(t) && HasKey(t.inbox, key)
    ensures NoOrphans(AddRows(t, key, targets)) && AddRows(t, key, targets).inbox == t.inbox
  {
    if targets != [] { AddRowsJoined(t, key, targets[..|targets| - 1]); }
  }

  lemma AddMessageJoined(t: Tables, key: Key)
    requires NoOrphans(t) && t.nextSeq !in t.inbox
    ensures NoOrphans(AddMessage(t, key)) && HasKey(AddMessage(t, key).inbox, key)
  {
    var inbox := AddMessage(t, key).inbox;
    assert inbox[t.nextSeq] == key;
    forall i | i in t.invocations ensures HasKey(inbox, t.invocations[i].key) {
      var s :| s in t.inbox && t.inbox[s] == t.invocations[i].key;
      assert inbox[s] == t.invocations[i].key;
    }
  }

  /** Only a pruning cut short after its first statement leaves such rows; its second removes them. */
  lemma OrphansOnlyFromPruning(w: World, e: Event)
    requires Good(w) && Possible(w.t, e) && !e.PruneInbox? && NoOrphans(w.t)
    ensures NoOrphans(StepTables(w.t, e))
  {
    match e
    case Accept(key, targets, _) =>
      AddMessageJoined(w.t, key);
      AddRowsJoined(AddMessage(w.t, key), key, targets);
    case _ =>
  }

  /** A redelivery of what a cut-short pruning forgot is refused. */
  lemma RefusedAfterCutShort(w: World, newest: nat, i: nat, targets: seq<Name>)
    requires Good(w) && Possible(w.t, PruneInbox(newest)) && i in w.t.invocations
    requires w.t.invocations[i].target in targets
    requires w.issued[i].message + DEDUPE_WINDOW <= newest && w.issued[i].message in w.t.inbox
    requires !Unfinished(w.t.invocations, w.t.invocations[i].key)
    ensures Accepting(AfterPruneInbox(w.t, newest), w.t.invocations[i].key, targets) == Refused
  {
    assert HasRow(w.t.invocations, w.t.invocations[i].key, w.t.invocations[i].target);
    assert w.t.inbox[w.issued[i].message] == w.t.invocations[i].key;
  }

  /** The same messages, and every row still there with its key and function. */
  ghost predicate SameRows(t: Tables, u: Tables) {
    && u.inbox == t.inbox
    && forall i :: i in t.invocations ==> i in u.invocations && u.invocations[i].key == t.invocations[i].key &&
                                          u.invocations[i].target == t.invocations[i].target
  }

  lemma SameRowsOn(t: Tables, u: Tables, v: Tables)
    requires SameRows(t, u) && SameRows(u, v)
    ensures SameRows(t, v)
  {}

  lemma SetSameRows(t: Tables, id: nat, row: Invocation)
    requires id in t.invocations && row.key == t.invocations[id].key && row.target == t.invocations[id].target
    ensures SameRows(t, AfterSet(t, id, row))
  {}

  /** Every row still there with its key and function, and this key not in the inbox if it was not before. */
  ghost predicate RowsStay(t: Tables, u: Tables, key: Key) {
    && (HasKey(u.inbox, key) ==> HasKey(t.inbox, key))
    && forall i :: i in t.invocations ==> i in u.invocations && u.invocations[i].key == t.invocations[i].key &&
                                          u.invocations[i].target == t.invocations[i].target
  }

  lemma RefusedStill(t: Tables, u: Tables, key: Key, targets: seq<Name>)
    requires RowsStay(t, u, key) && Accepting(t, key, targets) == Refused
    ensures Accepting(u, key, targets) == Refused
  {
    var f :| f in targets && HasRow(t.invocations, key, f);
    var i :| i in t.invocations && t.invocations[i].key == key && t.invocations[i].target == f;
    assert u.invocations[i].key == key && HasRow(u.invocations, key, f);
  }

  lemma {:induction false} AddRowsStay(t: Tables, other: Key, targets: seq<Name>, key: Key)
    requires Fresh(t)
    ensures Fresh(AddRows(t, other, targets)) && RowsStay(t, AddRows(t, other, targets), key)
    ensures AddRows(t, other, targets).inbox == t.inbox
  {
    if targets != [] { AddRowsStay(t, other, targets[..|targets| - 1], key); }
  }

  /** Taking in another message leaves the rows of this one. */
  lemma AcceptStays(t: Tables, other: Key, targets: seq<Name>, key: Key)
    requires Fresh(t) && other != key
    ensures RowsStay(t, AfterAccept(t, other, targets), key)
  {
    if Accepting(t, other, targets) == New {
      var u := AddMessage(t, other);
      AddRowsStay(u, other, targets, key);
      if s :| s in u.inbox && u.inbox[s] == key { assert t.inbox[s] == key; }
    }
  }

  /** Everything but the end of a prune, and but this message taken in for other functions. */
  predicate Keeps(e: Event, key: Key, targets: seq<Name>) {
    !e.PruneRows? && (e.Accept? && e.key == key ==> e.targets == targets)
  }

  lemma RefusedStep(w: World, v: World, e: Event, key: Key, targets: seq<Name>)
    requires Fresh(w.t) && Possible(w.t, e) && v == Step(w, e) && Keeps(e, key, targets)
    requires Accepting(w.t, key, targets) == Refused
    ensures Accepting(v.t, key, targets) == Refused && (key in v.acked <==> key in w.acked)
  {
    if e.Accept? && e.key != key {
      AcceptStays(w.t, e.key, e.targets, key);
      RouteAllRecords(w, e.key, e.targets);
    }
    if e.PruneInbox? && HasKey(v.t.inbox, key) {
      var s :| s in v.t.inbox && v.t.inbox[s] == key;
      assert w.t.inbox[s] == key;
    }
    RefusedStill(w.t, v.t, key, targets);
  }

  /** A step takes messages in before it prunes, and a refused one makes it raise. Whatever else is
      taken in, run, published and restarted meanwhile, the delivery stays refused and unacknowledged
      until the end of a prune that no such step reaches. */
  lemma {:induction false} RefusedForever(w: World, events: seq<Event>, key: Key, targets: seq<Name>)
    requires Good(w) && AllPossible(w, events) && Accepting(w.t, key, targets) == Refused
    requires forall i :: 0 <= i < |events| ==> Keeps(events[i], key, targets)
    ensures Accepting(Run(w, events).t, key, targets) == Refused
    ensures key in Run(w, events).acked <==> key in w.acked
    decreases |events|
  {
    if events != [] {
      var v := Step(w, events[0]);
      assert Keeps(events[0], key, targets);
      StepKeeps(w, events[0]);
      RefusedStep(w, v, events[0], key, targets);
      RefusedForever(v, events[1..], key, targets);
    }
  }

  /** Accepts of unrelated messages that no function is subscribed to. */
  function Others(from: nat, n: nat): seq<Event>
    decreases n
  {
    if n == 0 then [] else [Accept(Key(1, from), [], true)] + Others(from + 1, n - 1)
  }

  ghost predicate Before(t: Tables, from: nat) {
    forall s :: s in t.inbox ==> s < t.nextSeq && (t.inbox[s].subject == 1 ==> t.inbox[s].id < from)
  }

  ghost predicate SameButMore(w: World, v: World, n: nat) {
    && v.t.invocations == w.t.invocations && v.issued == w.issued && |v.accepted| == |w.accepted| + n
    && forall s :: s in w.t.inbox ==> s in v.t.inbox
  }

  lemma RunOne(w: World, e: Event)
    requires Possible(w.t, e)
    ensures AllPossible(w, [e]) && Run(w, [e]) == Step(w, e)
  {
    assert [e][1..] == [];
  }

  lemma RunCons(w: World, e: Event, rest: seq<Event>)
    requires Possible(w.t, e) && AllPossible(Step(w, e), rest)
    ensures AllPossible(w, [e] + rest) && Run(w, [e] + rest) == Run(Step(w, e), rest)
  {
    assert ([e] + rest)[1..] == rest;
  }

  lemma OneOther(w: World, v: World, from: nat)
    requires Before(w.t, from) && v == Step(w, Accept(Key(1, from), [], true))
    ensures Before(v.t, from + 1) && SameButMore(w, v, 1)
  {
    assert Accepting(w.t, Key(1, from), []) == New;
  }

  lemma MoreAndMore(u: World, v: World, w: World, n: nat)
    requires n >= 1 && SameButMore(u, v, 1) && SameButMore(v, w, n - 1)
    ensures SameButMore(u, w, n)
  {}

  lemma {:induction false} OthersRun(w: World, from: nat, n: nat)
    requires Before(w.t, from)
    ensures AllPossible(w, Others(from, n)) && SameButMore(w, Run(w, Others(from, n)), n)
    decreases n
  {
    if n > 0 {
      var e := Accept(Key(1, from), [], true);
      var v := Step(w, e);
      OneOther(w, v, from);
      OthersRun(v, from + 1, n - 1);
      MoreAndMore(w, v, Run(v, Others(from + 1, n - 1)), n);
      RunCons(w, e, Others(from + 1, n - 1));
    }
  }

  lemma {:induction false} RunConcat(w: World, a: seq<Event>, b: seq<Event>)
    requires AllPossible(w, a) && AllPossible(Run(w, a), b)
    ensures AllPossible(w, a + b) && Run(w, a + b) == Run(Run(w, a), b)
    decreases |a|
  {
    if a == [] {
      assert a + b == b;
    } else {
      Tail(a, b);
      RunConcat(Step(w, a[0]), a[1..], b);
    }
  }

  /** A first message with one row that is published. */
  lemma OnePublished() returns (events: seq<Event>)
    ensures AllPossible(BEGINNING, events)
    ensures var w := Run(BEGINNING, events);
            && Good(w) && w.t.inbox == map[0 := Key(0, 0)] && |w.accepted| == 1 && w.issued == [Issued(0, 0)]
            && w.t.invocations.Keys == {0} && w.t.invocations[0].state == Published
            && w.t.invocations[0].key == Key(0, 0) && w.t.invocations[0].target == 0
  {
    var accept := Accept(Key(0, 0), [0], true);
    var a := Step(BEGINNING, accept);
    assert Accepting(BEGINNING.t, Key(0, 0), [0]) == New;
    assert [0][..0] == [];
    RouteAllRecords(BEGINNING, Key(0, 0), [0]);
    assert RouteAll(BEGINNING, Key(0, 0), []) == Record(BEGINNING, Key(0, 0));
    var b := Step(a, Start(0));
    var c := Step(b, Complete(0, Ok));
    var d := Step(c, Publish(0));
    RunOne(c, Publish(0));
    RunCons(b, Complete(0, Ok), [Publish(0)]);
    RunCons(a, Start(0), [Complete(0, Ok)] + [Publish(0)]);
    RunCons(BEGINNING, accept, [Start(0)] + ([Complete(0, Ok)] + [Publish(0)]));
    events := [accept] + ([Start(0)] + ([Complete(0, Ok)] + [Publish(0)]));
    EveryRunIsGood(events);
  }

  /** The refusal is reached from the empty journal: one message is handled, ten thousand others come,
      and a prune is cut short. */
  lemma RefusalIsReachable() returns (events: seq<Event>)
    ensures AllPossible(BEGINNING, events)
    ensures Accepting(Run(BEGINNING, events).t, Key(0, 0), [0]) == Refused
  {
    var first := OnePublished();
    var w := Run(BEGINNING, first);
    OthersRun(w, 0, DEDUPE_WINDOW);
    RunKeeps(w, Others(0, DEDUPE_WINDOW));
    var v := Run(w, Others(0, DEDUPE_WINDOW));
    RunConcat(BEGINNING, first, Others(0, DEDUPE_WINDOW));
    RunOne(v, PruneInbox(DEDUPE_WINDOW));
    RunConcat(BEGINNING, first + Others(0, DEDUPE_WINDOW), [PruneInbox(DEDUPE_WINDOW)]);
    RefusedAfterCutShort(v, DEDUPE_WINDOW, 0, [0]);
    events := first + Others(0, DEDUPE_WINDOW) + [PruneInbox(DEDUPE_WINDOW)];
  }

  // --- The journal object ------------------------------------------------------------------------------------

  /** Ids in a state whose message is there, in order, below `n`. */
  function RowIds(t: Tables, state: State, n: nat): seq<nat> {
    if n == 0 then []
    else RowIds(t, state, n - 1) +
         if InState(t, n - 1, {state}) && HasKey(t.inbox, t.invocations[n - 1].key) then [n - 1] else []
  }

  /** The rows that still have something to do. */
  function Outstanding(t: Tables): set<nat> { set i | i in t.invocations && t.invocations[i].state != Published }

  predicate Fresh(t: Tables) {
    (forall s :: s in t.inbox ==> s < t.nextSeq) && (forall i :: i in t.invocations ==> i < t.nextId)
  }

  lemma {:induction false} AddRowsHas(t: Tables, key: Key, targets: seq<Name>, f: Name)
    requires Fresh(t)
    ensures HasRow(AddRows(t, key, targets).invocations, key, f) <==> HasRow(t.invocations, key, f) || f in targets
    ensures Fresh(AddRows(t, key, targets))
  {
    if targets != [] {
      var init, last := targets[..|targets| - 1], targets[|targets| - 1];
      AddRowsHas(t, key, init, f);
      AddRowHas(AddRows(t, key, init), key, last, f);
      assert targets == init + [last];
    }
  }

  lemma AddRowHas(t: Tables, key: Key, g: Name, f: Name)
    requires Fresh(t)
    ensures HasRow(AddRow(t, key, g).invocations, key, f) <==> HasRow(t.invocations, key, f) || f == g
  {
    var rows := AddRow(t, key, g).invocations;
    assert rows[t.nextId].target == g;
    if HasRow(t.invocations, key, f) {
      var i :| i in t.invocations && t.invocations[i].key == key && t.invocations[i].target == f;
      assert rows[i] == t.invocations[i];
    }
  }

  class Journal {
    var inbox: map<nat, Key>
    var nextSeq: nat
    var invocations: map<nat, Invocation>
    var nextId: nat

    function Now(): Tables
      reads this
    {
      Tables(inbox, nextSeq, invocations, nextId)
    }

    ghost predicate Valid()
      reads this
    {
      Fresh(Now())
    }

    constructor ()
      ensures Valid() && Now() == Tables(map[], 0, map[], 0)
    {
      inbox, nextSeq, invocations, nextId := map[], 0, map[], 0;
    }

    /** Record a message and its rows in one transaction, once; a clash rolls everything back. */
    method Accept(key: Key, targets: seq<Name>) returns (r: Acceptance)
      requires Valid() && Distinct(targets)
      modifies this
      ensures Valid() && r == Accepting(old(Now()), key, targets) && Now() == AfterAccept(old(Now()), key, targets)
    {
      if HasKey(inbox, key) { return Duplicate; }
      var saved := Now();
      ghost var begun := AddMessage(saved, key);
      inbox, nextSeq := inbox[nextSeq := key], nextSeq + 1;
      var k := 0;
      while k < |targets|
        invariant k <= |targets| && Now() == AddRows(begun, key, targets[..k])
        invariant !Clashes(saved.invocations, key, targets[..k])
      {
        AddRowsHas(begun, key, targets[..k], targets[k]);
        if HasRow(invocations, key, targets[k]) {
          assert targets[k] !in targets[..k];
          inbox, nextSeq, invocations, nextId := saved.inbox, saved.nextSeq, saved.invocations, saved.nextId;
          return Refused;
        }
        invocations, nextId := invocations[nextId := Invocation(key, targets[k], Pending, 0, None)], nextId + 1;
        assert targets[..k + 1][..k] == targets[..k];
        k := k + 1;
      }
      assert targets[..k] == targets;
      if targets != [] { AddRowsHas(begun, key, targets, targets[0]); }
      r := New;
    }

    method Start(id: nat) returns (attempt: nat)
      requires Valid() && Possible(Now(), Event.Start(id))
      modifies this
      ensures Valid() && Now() == StepTables(old(Now()), Event.Start(id)) && attempt == invocations[id].attempt
    {
      var row := invocations[id];
      invocations := invocations[id := row.(state := Running, attempt := row.attempt + 1)];
      attempt := invocations[id].attempt;
    }

    method Complete(id: nat, status: Status)
      requires Valid() && Possible(Now(), Event.Complete(id, status))
      modifies this
      ensures Valid() && Now() == StepTables(old(Now()), Event.Complete(id, status))
    {
      invocations := invocations[id := invocations[id].(state := Completed, status := Some(status))];
    }

    method MarkPublished(id: nat)
      requires Valid() && Possible(Now(), Publish(id))
      modifies this
      ensures Valid() && Now() == StepTables(old(Now()), Publish(id))
    {
      invocations := invocations[id := invocations[id].(state := Published)];
    }

    /** Interrupted invocations run again. */
    method Resume()
      requires Valid()
      modifies this
      ensures Valid() && Now() == StepTables(old(Now()), Recover)
    {
      invocations := map i | i in invocations ::
        if invocations[i].state == Running then invocations[i].(state := Pending) else invocations[i];
    }

    /** Forget old messages that are done with, then the rows of forgotten messages. */
    method Prune()
      requires Valid()
      modifies this
      ensures Valid() && NoOrphans(Now())
      ensures if old(inbox) == map[] then Now() == AfterPruneRows(old(Now()))
              else exists newest :: Possible(old(Now()), PruneInbox(newest)) &&
                                    Now() == AfterPruneRows(AfterPruneInbox(old(Now()), newest))
    {
      if inbox != map[] {
        var newest := Newest(inbox.Keys);
        assert Possible(Now(), PruneInbox(newest));
        inbox := map s | s in inbox && (s > newest - DEDUPE_WINDOW || Unfinished(invocations, inbox[s])) :: inbox[s];
      }
      invocations := map i | i in invocations && HasKey(inbox, invocations[i].key) :: invocations[i];
    }
  }

  method Newest(keys: set<nat>) returns (newest: nat)
    requires keys != {}
    ensures newest in keys && forall s :: s in keys ==> s <= newest
  {
    newest :| newest in keys;
    var rest := keys - {newest};
    while rest != {}
      invariant rest < keys && newest in keys && forall s :: s in keys ==> s in rest || s <= newest
      decreases |rest|
    {
      var s :| s in rest;
      if s > newest { newest := s; }
      rest := rest - {s};
    }
  }
}
