/** The log exporter: a bounded spool that drops its oldest events, and ticks that upload each
    source's events in order of time and stop at the first batch that is not acknowledged. */
module LogExport {
  import opened Common
  import opened Greedy
  import opened LogBatching

  /** The durable spool in order of arrival, the last number given out and the count of dropped events. */
  datatype State = State(spool: seq<Event>, count: nat, dropped: nat)

  // --- Logging one line --------------------------------------------------------------------------------

  /** The parts of a line as events with the next numbers. */
  function Numbered(parts: seq<string>, source: Source, time: real, day: int, count: nat): (r: seq<Event>)
    ensures |r| == |parts|
  {
    if parts == [] then []
    else [Event(count + 1, source, time, day, parts[0])] + Numbered(parts[1..], source, time, day, count + 1)
  }

  /** What is left after dropping the oldest events until the rest fits. */
  function Trim(spool: seq<Event>, limit: nat): (r: seq<Event>)
    ensures |r| <= |spool| && Bytes(r) <= limit
  {
    if Bytes(spool) <= limit then spool else Trim(spool[1..], limit)
  }

  /** A line larger than the whole spool drops itself; any other is stored and makes room for itself. */
  function AfterLog(s: State, limit: nat, line: seq<Event>): State {
    if Bytes(line) > limit then s.(dropped := s.dropped + |line|)
    else
      var all := s.spool + line;
      var kept := Trim(all, limit);
      State(kept, s.count + |line|, s.dropped + |all| - |kept|)
  }

  function Without(spool: seq<Event>, sent: set<nat>): seq<Event> {
    if spool == [] then [] else (if spool[0].seqno in sent then [] else [spool[0]]) + Without(spool[1..], sent)
  }

  function AfterTick(s: State, sent: set<nat>): State { s.(spool := Without(s.spool, sent)) }

  // --- Numbers in the spool -------------------------------------------------------------------------------

  function Ids(events: seq<Event>): set<nat> { if events == [] then {} else {events[0].seqno} + Ids(events[1..]) }

  /** Rising numbers above `low` and up to `high`. */
  ghost predicate Rising(events: seq<Event>, low: nat, high: nat) {
    low <= high && (events == [] || (low < events[0].seqno <= high && Rising(events[1..], events[0].seqno, high)))
  }

  /** Every event was split to the event limit. */
  ghost predicate AllFit(events: seq<Event>) {
    events == [] || (LineFits(events[0].message) && AllFit(events[1..]))
  }

  lemma {:induction false} AllFitMeans(events: seq<Event>)
    ensures AllFit(events) <==> forall e :: e in events ==> LineFits(e.message)
  {
    if events != [] {
      AllFitMeans(events[1..]);
      assert events == [events[0]] + events[1..];
    }
  }

  lemma AllFitSome(events: seq<Event>, some: seq<Event>)
    requires AllFit(events) && forall e :: e in some ==> e in events
    ensures AllFit(some)
  {
    AllFitMeans(events);
    AllFitMeans(some);
  }

  lemma AllFitBoth(a: seq<Event>, b: seq<Event>)
    requires AllFit(a) && AllFit(b)
    ensures AllFit(a + b)
  {
    AllFitMeans(a);
    AllFitMeans(b);
    AllFitMeans(a + b);
  }

  lemma {:induction false} IdsIn(events: seq<Event>, id: nat)
    ensures id in Ids(events) <==> exists e :: e in events && e.seqno == id
  {
    if events != [] {
      IdsIn(events[1..], id);
      if id in Ids(events[1..]) {
        var e :| e in events[1..] && e.seqno == id;
        assert e in events;
      }
      if e :| e in events && e.seqno == id { assert e == events[0] || e in events[1..]; }
      if id == events[0].seqno { assert events[0] in events; }
    }
  }

  lemma {:induction false} RisingBounds(events: seq<Event>, low: nat, high: nat, id: nat)
    requires Rising(events, low, high) && id in Ids(events)
    ensures low < id <= high
  {
    if id != events[0].seqno { RisingBounds(events[1..], events[0].seqno, high, id); }
  }

  lemma {:induction false} RisingHigher(events: seq<Event>, low: nat, high: nat, higher: nat)
    requires Rising(events, low, high) && high <= higher
    ensures Rising(events, low, higher)
  {
    if events != [] { RisingHigher(events[1..], events[0].seqno, high, higher); }
  }

  lemma {:induction false} RisingLower(events: seq<Event>, low: nat, high: nat, lower: nat)
    requires Rising(events, low, high) && lower <= low
    ensures Rising(events, lower, high)
  {}

  lemma {:induction false} RisingConcat(a: seq<Event>, b: seq<Event>, low: nat, middle: nat, high: nat)
    requires Rising(a, low, middle) && Rising(b, middle, high)
    ensures Rising(a + b, low, high) && Ids(a + b) == Ids(a) + Ids(b)
  {
    if a == [] {
      assert a + b == b;
      RisingLower(b, middle, high, low);
    } else {
      Tail(a, b);
      RisingConcat(a[1..], b, a[0].seqno, middle, high);
    }
  }

  lemma {:induction false} NumberedRises(parts: seq<string>, source: Source, time: real, day: int, count: nat)
    ensures Rising(Numbered(parts, source, time, day, count), count, count + |parts|)
  {
    if parts != [] {
      NumberedRises(parts[1..], source, time, day, count + 1);
      var rest := Numbered(parts[1..], source, time, day, count + 1);
      assert Numbered(parts, source, time, day, count)[1..] == rest;
    }
  }

  /** With rising numbers there are as many events as numbers, and all are distinct. */
  lemma {:induction false} IdsCount(events: seq<Event>, low: nat, high: nat)
    requires Rising(events, low, high)
    ensures |Ids(events)| == |events|
  {
    if events != [] {
      IdsCount(events[1..], events[0].seqno, high);
      if events[0].seqno in Ids(events[1..]) { RisingBounds(events[1..], events[0].seqno, high, events[0].seqno); }
    }
  }

  // --- What trimming and uploading leave --------------------------------------------------------------------

  lemma {:induction false} TrimKeeps(spool: seq<Event>, limit: nat, low: nat, high: nat)
    requires Rising(spool, low, high)
    ensures Rising(Trim(spool, limit), low, high) && Ids(Trim(spool, limit)) <= Ids(spool)
    ensures AllFit(spool) ==> AllFit(Trim(spool, limit))
  {
    if Bytes(spool) > limit {
      TrimKeeps(spool[1..], limit, spool[0].seqno, high);
      RisingLower(Trim(spool[1..], limit), spool[0].seqno, high, low);
    }
  }

  lemma {:induction false} WithoutKeeps(spool: seq<Event>, sent: set<nat>, low: nat, high: nat)
    requires Rising(spool, low, high)
    ensures Rising(Without(spool, sent), low, high) && Ids(Without(spool, sent)) == Ids(spool) - sent
    ensures Bytes(Without(spool, sent)) <= Bytes(spool) && (AllFit(spool) ==> AllFit(Without(spool, sent)))
  {
    if spool != [] {
      var e, rest := spool[0], Without(spool[1..], sent);
      WithoutKeeps(spool[1..], sent, e.seqno, high);
      if e.seqno in sent {
        assert Without(spool, sent) == rest;
        RisingLower(rest, e.seqno, high, low);
        if e.seqno in Ids(spool[1..]) { RisingBounds(spool[1..], e.seqno, high, e.seqno); }
      } else {
        assert ([e] + rest)[1..] == rest;
      }
    }
  }

  // --- Runs --------------------------------------------------------------------------------------------------

  /** Which of two events is uploaded first: the earlier, and of equal times the one that came first. */
  predicate Before(e: Event, f: Event) { e.time < f.time || (e.time == f.time && e.seqno < f.seqno) }

  /** What was acknowledged of a source comes before whatever was not. */
  ghost predicate InOrder(spool: seq<Event>, sent: set<nat>, source: Source) {
    forall e, f :: e in spool && f in spool && e.source == f.source == source && f.seqno in sent && Before(e, f) ==>
      e.seqno in sent
  }

  datatype Happening = Logged(line: seq<Event>) | Ticked(sent: set<nat>)

  /** The spool with the numbers acknowledged, the numbers dropped, and how many events were offered
      and how many of those never got a number. */
  datatype World = World(state: State, delivered: set<nat>, lost: set<nat>, offered: nat, refused: nat)

  ghost predicate Possible(s: State, e: Happening) {
    match e
    case Logged(line) => Rising(line, s.count, s.count + |line|) && AllFit(line)
    case Ticked(sent) => sent <= Ids(s.spool) && forall source :: InOrder(s.spool, sent, source)
  }

  function StepState(s: State, limit: nat, e: Happening): State {
    match e
    case Logged(line) => AfterLog(s, limit, line)
    case Ticked(sent) => AfterTick(s, sent)
  }

  function Step(w: World, limit: nat, e: Happening): World {
    var s := StepState(w.state, limit, e);
    match e
    case Logged(line) =>
      if Bytes(line) > limit then w.(state := s, offered := w.offered + |line|, refused := w.refused + |line|)
      else w.(state := s, offered := w.offered + |line|, lost := w.lost + (Ids(w.state.spool + line) - Ids(s.spool)))
    case Ticked(sent) => w.(state := s, delivered := w.delivered + sent)
  }

  /** Every number given out is spooled, acknowledged or dropped, and in one of these places only. */
  ghost predicate Apart(w: World) { Parted(Ids(w.state.spool), w.delivered, w.lost, w.state.count) }

  ghost predicate Parted(spooled: set<nat>, delivered: set<nat>, lost: set<nat>, count: nat) {
    && (forall i :: 1 <= i <= count <==> i in spooled || i in delivered || i in lost)
    && spooled !! delivered && spooled !! lost && delivered !! lost
  }

  lemma StoreParts(spooled: set<nat>, line: set<nat>, kept: set<nat>, delivered: set<nat>, lost: set<nat>, m: nat,
                   n: nat)
    requires Parted(spooled, delivered, lost, m) && (forall i :: i in line <==> m < i <= n) && m <= n
    requires kept <= spooled + line
    ensures Parted(kept, delivered, lost + (spooled + line - kept), n) && lost !! spooled + line - kept
  {}

  lemma SendParts(spooled: set<nat>, sent: set<nat>, delivered: set<nat>, lost: set<nat>, n: nat)
    requires Parted(spooled, delivered, lost, n) && sent <= spooled
    ensures Parted(spooled - sent, delivered + sent, lost, n) && delivered !! sent
  {}

  ghost predicate Good(w: World, limit: nat) {
    && Rising(w.state.spool, 0, w.state.count) && Apart(w)
    && Bytes(w.state.spool) <= limit && AllFit(w.state.spool)
    && w.state.dropped == |w.lost| + w.refused && w.offered == w.state.count + w.refused
    && w.state.count == |w.delivered| + |w.lost| + |w.state.spool|
  }

  lemma SizeOfRest(a: set<nat>, b: set<nat>)
    requires b <= a
    ensures |a - b| == |a| - |b|
  {
    assert a == (a - b) + b;
  }

  lemma SizeOfBoth(a: set<nat>, b: set<nat>)
    requires a !! b
    ensures |a + b| == |a| + |b|
  {}

  /** What storing a line does to the numbers. */
  lemma {:induction false} StoreIds(spool: seq<Event>, line: seq<Event>, count: nat, limit: nat, all: seq<Event>,
                                    kept: seq<Event>)
    requires Rising(spool, 0, count) && Rising(line, count, count + |line|) && all == spool + line
    requires kept == Trim(all, limit)
    ensures Rising(kept, 0, count + |line|) && Ids(all) == Ids(spool) + Ids(line) && Ids(kept) <= Ids(all)
    ensures |Ids(all) - Ids(kept)| == |all| - |kept| && (AllFit(spool) && AllFit(line) ==> AllFit(kept))
  {
    var n := count + |line|;
    if AllFit(spool) && AllFit(line) { AllFitBoth(spool, line); }
    RisingConcat(spool, line, 0, count, n);
    TrimKeeps(all, limit, 0, n);
    IdsCount(all, 0, n);
    IdsCount(kept, 0, n);
    SizeOfRest(Ids(all), Ids(kept));
  }

  lemma {:induction false} AllNumbers(line: seq<Event>, low: nat, i: nat)
    requires Rising(line, low, low + |line|) && low < i <= low + |line|
    ensures i in Ids(line)
  {
    if line != [] {
      Tight(line, low, low + |line|);
      if i != line[0].seqno { AllNumbers(line[1..], low + 1, i); }
    }
  }

  /** As many rising numbers as there are places leave no gap. */
  lemma {:induction false} Tight(line: seq<Event>, low: nat, high: nat)
    requires Rising(line, low, high)
    ensures |line| <= high - low
    ensures line != [] && |line| == high - low ==> line[0].seqno == low + 1 && Rising(line[1..], low + 1, high)
  {
    if line != [] { Tight(line[1..], line[0].seqno, high); }
  }

  lemma {:induction false} LineIds(line: seq<Event>, count: nat)
    requires Rising(line, count, count + |line|)
    ensures forall i :: i in Ids(line) <==> count < i <= count + |line|
  {
    forall i ensures i in Ids(line) <==> count < i <= count + |line| {
      if i in Ids(line) { RisingBounds(line, count, count + |line|, i); }
      if count < i <= count + |line| { AllNumbers(line, count, i); }
    }
  }

  lemma {:induction false} LogParts(spooled: set<nat>, line: seq<Event>, all: set<nat>, kept: set<nat>,
                 delivered: set<nat>, lost: set<nat>, n: nat)
    requires Parted(spooled, delivered, lost, n) && Rising(line, n, n + |line|)
    requires all == spooled + Ids(line) && kept <= all
    ensures Parted(kept, delivered, lost + (all - kept), n + |line|) && |lost + (all - kept)| == |lost| + |all - kept|
  {
    LineIds(line, n);
    StoreParts(spooled, Ids(line), kept, delivered, lost, n, n + |line|);
    SizeOfBoth(lost, all - kept);
  }

  function Stored(w: World, line: seq<Event>, all: seq<Event>, kept: seq<Event>): World
    requires |kept| <= |all|
  {
    World(State(kept, w.state.count + |line|, w.state.dropped + |all| - |kept|), w.delivered,
          w.lost + (Ids(all) - Ids(kept)), w.offered + |line|, w.refused)
  }

  lemma StepStores(w: World, limit: nat, line: seq<Event>, all: seq<Event>)
    requires Bytes(line) <= limit && all == w.state.spool + line
    ensures Step(w, limit, Logged(line)) == Stored(w, line, all, Trim(all, limit))
  {}

  lemma {:induction false} StoreKeeps(w: World, limit: nat, line: seq<Event>, all: seq<Event>, kept: seq<Event>)
    requires Good(w, limit) && Rising(line, w.state.count, w.state.count + |line|)
    requires Rising(kept, 0, w.state.count + |line|) && Bytes(kept) <= limit && AllFit(kept)
    requires Ids(all) == Ids(w.state.spool) + Ids(line) && |all| == |w.state.spool| + |line|
    requires |kept| <= |all| && Ids(kept) <= Ids(all) && |Ids(all) - Ids(kept)| == |all| - |kept|
    ensures Good(Stored(w, line, all, kept), limit)
  {
    LogParts(Ids(w.state.spool), line, Ids(all), Ids(kept), w.delivered, w.lost, w.state.count);
  }

  lemma {:induction false} LineKeeps(w: World, limit: nat, line: seq<Event>)
    requires Good(w, limit) && Rising(line, w.state.count, w.state.count + |line|) && AllFit(line)
    ensures var all := w.state.spool + line; Good(Stored(w, line, all, Trim(all, limit)), limit)
  {
    var all := w.state.spool + line;
    StoreIds(w.state.spool, line, w.state.count, limit, all, Trim(all, limit));
    StoreKeeps(w, limit, line, all, Trim(all, limit));
  }

  lemma {:induction false} LogKeeps(w: World, limit: nat, line: seq<Event>)
    requires Good(w, limit) && Possible(w.state, Logged(line))
    ensures Good(Step(w, limit, Logged(line)), limit)
  {
    if Bytes(line) <= limit {
      StepStores(w, limit, line, w.state.spool + line);
      LineKeeps(w, limit, line);
    }
  }

  lemma {:induction false} TickKeeps(w: World, v: World, limit: nat, sent: set<nat>)
    requires Good(w, limit) && sent <= Ids(w.state.spool) && v == Step(w, limit, Ticked(sent))
    ensures Good(v, limit)
  {
    var spool, n := w.state.spool, w.state.count;
    WithoutKeeps(spool, sent, 0, n);
    IdsCount(spool, 0, n);
    IdsCount(v.state.spool, 0, n);
    SizeOfRest(Ids(spool), sent);
    SendParts(Ids(spool), sent, w.delivered, w.lost, n);
    SizeOfBoth(w.delivered, sent);
  }

  lemma {:induction false} StepKeeps(w: World, limit: nat, e: Happening)
    requires Good(w, limit) && Possible(w.state, e)
    ensures Good(Step(w, limit, e), limit)
  {
    match e
    case Logged(line) => LogKeeps(w, limit, line);
    case Ticked(sent) => TickKeeps(w, Step(w, limit, e), limit, sent);
  }

  ghost predicate AllPossible(w: World, limit: nat, events: seq<Happening>)
    decreases |events|
  {
    events == [] || (Possible(w.state, events[0]) && AllPossible(Step(w, limit, events[0]), limit, events[1..]))
  }

  function Run(w: World, limit: nat, events: seq<Happening>): World
    decreases |events|
  {
    if events == [] then w else Run(Step(w, limit, events[0]), limit, events[1..])
  }

  lemma {:induction false} RunKeeps(w: World, limit: nat, events: seq<Happening>)
    requires Good(w, limit) && AllPossible(w, limit, events)
    ensures Good(Run(w, limit, events), limit)
    decreases |events|
  {
    if events != [] {
      StepKeeps(w, limit, events[0]);
      RunKeeps(Step(w, limit, events[0]), limit, events[1..]);
    }
  }

  const START := World(State([], 0, 0), {}, {}, 0, 0)

  /** After every run of logs and ticks from an empty spool, with any answers: every event offered is
      delivered, counted as dropped or still spooled, each in one place, and the spool is within its limit. */
  lemma EveryEventAccountedFor(limit: nat, events: seq<Happening>)
    requires AllPossible(START, limit, events)
    ensures var w := Run(START, limit, events);
            && w.offered == |w.delivered| + w.state.dropped + |w.state.spool| && Apart(w)
            && Bytes(w.state.spool) <= limit
  {
    RunKeeps(START, limit, events);
  }

  // --- Uploading one source ------------------------------------------------------------------------------------

  function Of(spool: seq<Event>, source: Source): seq<Event> {
    if spool == [] then [] else (if spool[0].source == source then [spool[0]] else []) + Of(spool[1..], source)
  }

  lemma {:induction false} OfIn(spool: seq<Event>, source: Source, e: Event)
    ensures e in Of(spool, source) <==> e in spool && e.source == source
  {
    if spool != [] { OfIn(spool[1..], source, e); }
  }

  lemma {:induction false} OfRises(spool: seq<Event>, source: Source, low: nat, high: nat)
    requires Rising(spool, low, high)
    ensures Rising(Of(spool, source), low, high)
  {
    if spool != [] {
      var rest := Of(spool[1..], source);
      OfRises(spool[1..], source, spool[0].seqno, high);
      if spool[0].source == source {
        assert ([spool[0]] + rest)[1..] == rest;
      } else {
        RisingLower(rest, spool[0].seqno, high, low);
        assert Of(spool, source) == rest;
      }
    }
  }

  /** An event after all that are not later: what a stable sort by time does with the next one. */
  function Place(sorted: seq<Event>, e: Event): seq<Event> {
    var n := |sorted|;
    if n == 0 || sorted[n - 1].time <= e.time then sorted + [e] else Place(sorted[..n - 1], e) + [sorted[n - 1]]
  }

  function SortByTime(events: seq<Event>): seq<Event> {
    if events == [] then [] else Place(SortByTime(events[..|events| - 1]), events[|events| - 1])
  }

  ghost predicate Sorted(events: seq<Event>) { forall i, j :: 0 <= i < j < |events| ==> Before(events[i], events[j]) }

  lemma {:induction false} PlaceKeeps(sorted: seq<Event>, e: Event)
    requires Sorted(sorted) && forall i :: 0 <= i < |sorted| ==> sorted[i].seqno < e.seqno
    ensures Sorted(Place(sorted, e)) && |Place(sorted, e)| == |sorted| + 1
    ensures forall x :: x in Place(sorted, e) <==> x in sorted || x == e
  {
    var n := |sorted|;
    if n > 0 && sorted[n - 1].time > e.time {
      var init, last := sorted[..n - 1], sorted[n - 1];
      PlaceKeeps(init, e);
      assert sorted == init + [last];
      var r := Place(init, e);
      forall i | 0 <= i < |r| ensures Before(r[i], last) { assert r[i] in r; }
    }
  }

  /** The sort keeps exactly the events and puts them in order of time and then of arrival. */
  lemma {:induction false} SortKeeps(events: seq<Event>, low: nat, high: nat)
    requires Rising(events, low, high)
    ensures Sorted(SortByTime(events)) && |SortByTime(events)| == |events|
    ensures forall x :: x in SortByTime(events) <==> x in events
  {
    if events != [] {
      var init, last := events[..|events| - 1], events[|events| - 1];
      assert events == init + [last];
      RisingInit(init, last, low, high);
      SortKeeps(init, low, last.seqno - 1);
      var sorted := SortByTime(init);
      forall i | 0 <= i < |sorted| ensures sorted[i].seqno < last.seqno {
        assert sorted[i] in init;
        IdsIn(init, sorted[i].seqno);
        RisingBounds(init, low, last.seqno - 1, sorted[i].seqno);
      }
      PlaceKeeps(sorted, last);
    }
  }

  lemma {:induction false} RisingInit(init: seq<Event>, last: Event, low: nat, high: nat)
    requires Rising(init + [last], low, high)
    ensures low < last.seqno <= high && Rising(init, low, last.seqno - 1)
  {
    if init == [] {
      assert init + [last] == [last];
    } else {
      Tail(init, [last]);
      RisingInit(init[1..], last, init[0].seqno, high);
    }
  }

  /** The first events of a sorted list are in order before the others. */
  lemma {:induction false} PrefixInOrder(spool: seq<Event>, source: Source, events: seq<Event>, n: nat, high: nat)
    requires Rising(spool, 0, high) && n <= |events| && Sorted(events)
    requires forall x :: x in events <==> x in spool && x.source == source
    ensures InOrder(spool, Ids(events[..n]), source)
  {
    var sent := Ids(events[..n]);
    forall e, f | e in spool && f in spool && e.source == f.source == source && f.seqno in sent && Before(e, f)
      ensures e.seqno in sent
    {
      IdsIn(events[..n], f.seqno);
      var g :| g in events[..n] && g.seqno == f.seqno;
      SameNumber(spool, 0, high, f, g);
      var i :| 0 <= i < n && events[i] == f;
      var j :| 0 <= j < |events| && events[j] == e;
      assert j < n;
      assert events[..n][j] == e;
      IdsIn(events[..n], e.seqno);
    }
  }

  lemma {:induction false} SameNumber(spool: seq<Event>, low: nat, high: nat, e: Event, f: Event)
    requires Rising(spool, low, high) && e in spool && f in spool && e.seqno == f.seqno
    ensures e == f
  {
    if e == spool[0] || f == spool[0] {
      var rest := spool[1..];
      if e != f {
        var g := if e == spool[0] then f else e;
        assert g in rest;
        IdsIn(rest, g.seqno);
        RisingBounds(rest, spool[0].seqno, high, g.seqno);
      }
    } else {
      SameNumber(spool[1..], spool[0].seqno, high, e, f);
    }
  }

  // --- The exporter object --------------------------------------------------------------------------------------

  /** The sources with events, sorted. */
  function Sources(spool: seq<Event>): (r: seq<Source>)
    ensures Ascending(r) && forall e :: e in spool ==> e.source in r
  {
    if spool == [] then [] else InsertSorted(Sources(spool[1..]), spool[0].source)
  }

  method Parts(message: string) returns (parts: seq<string>)
    ensures Flatten(parts) == message && AllWithin(parts, LineFits)
  {
    parts := Split(message);
  }

  method Partition(events: seq<Event>) returns (batches: seq<seq<Event>>)
    requires AllFit(events)
    ensures Flatten(batches) == events && AllWithin(batches, BatchFits) && NoneEmpty(batches)
  {
    AllFitMeans(events);
    var days, r := Batches(events);
    batches := r.value;
  }

  ghost predicate NoneEmpty(batches: seq<seq<Event>>) {
    forall i :: 0 <= i < |batches| ==> batches[i] != []
  }

  lemma {:induction false} FlattenTake(batches: seq<seq<Event>>, k: nat)
    requires k <= |batches|
    ensures Flatten(batches[..k]) <= Flatten(batches)
  {
    FlattenAppend(batches[..k], batches[k..]);
    assert batches == batches[..k] + batches[k..];
  }

  lemma {:induction false} FlattenNext(batches: seq<seq<Event>>, k: nat)
    requires k < |batches|
    ensures Flatten(batches[..k + 1]) == Flatten(batches[..k]) + batches[k]
  {
    FlattenOne(batches[..k], batches[k]);
    assert batches[..k + 1] == batches[..k] + [batches[k]];
  }

  /** Upload the batches of one source until one is not acknowledged. */
  method Upload(events: seq<Event>, answers: nat -> bool, first: nat)
    returns (acked: seq<Event>, calls: nat, batches: seq<seq<Event>>, k: nat)
    requires AllFit(events)
    ensures Flatten(batches) == events && AllWithin(batches, BatchFits) && NoneEmpty(batches)
    ensures Called(batches, k, calls, answers, first) && acked == Flatten(batches[..k]) && acked <= events
  {
    batches := Partition(events);
    acked, calls, k := [], first, 0;
    while k < |batches|
      invariant k <= |batches| && calls == first + k && acked == Flatten(batches[..k])
      invariant forall i :: first <= i < first + k ==> answers(i)
    {
      FlattenNext(batches, k);
      calls := calls + 1;
      if !answers(first + k) {
        FlattenTake(batches, k);
        return;
      }
      acked, k := acked + batches[k], k + 1;
    }
    FlattenTake(batches, k);
  }

  /** The numbers in the uploads that were acknowledged. */
  ghost function Acked(uploads: seq<seq<Event>>, answers: nat -> bool): set<nat> {
    var n := |uploads|;
    if n == 0 then {}
    else Acked(uploads[..n - 1], answers) + if answers(n - 1) then Ids(uploads[n - 1]) else {}
  }

  ghost predicate AllOk(answers: nat -> bool, from: nat, upTo: nat) { forall i :: from <= i < upTo ==> answers(i) }

  lemma {:induction false} AckedNext(uploads: seq<seq<Event>>, batch: seq<Event>, answers: nat -> bool)
    ensures Acked(uploads + [batch], answers) ==
            Acked(uploads, answers) + if answers(|uploads|) then Ids(batch) else {}
  {
    assert (uploads + [batch])[..|uploads|] == uploads;
  }

  lemma {:induction false} AckedMore(uploads: seq<seq<Event>>, batches: seq<seq<Event>>, k: nat, answers: nat -> bool)
    requires k <= |batches| && AllOk(answers, |uploads|, |uploads| + k)
    ensures Acked(uploads + batches[..k], answers) == Acked(uploads, answers) + Ids(Flatten(batches[..k]))
    ensures k < |batches| && !answers(|uploads| + k) ==>
              Acked(uploads + batches[..k + 1], answers) == Acked(uploads + batches[..k], answers)
  {
    if k == 0 {
      assert uploads + batches[..0] == uploads;
    } else {
      AckedMore(uploads, batches, k - 1, answers);
      AckedOne(uploads, batches, k - 1, answers);
      FlattenNext(batches, k - 1);
      IdsConcat(Flatten(batches[..k - 1]), batches[k - 1]);
    }
    if k < |batches| { AckedOne(uploads, batches, k, answers); }
  }

  lemma TakeOne(uploads: seq<seq<Event>>, batches: seq<seq<Event>>, k: nat)
    requires k < |batches|
    ensures uploads + batches[..k + 1] == uploads + batches[..k] + [batches[k]]
  {}

  lemma {:induction false} AckedOne(uploads: seq<seq<Event>>, batches: seq<seq<Event>>, k: nat, answers: nat -> bool)
    requires k < |batches|
    ensures Acked(uploads + batches[..k + 1], answers) ==
            Acked(uploads + batches[..k], answers) + if answers(|uploads| + k) then Ids(batches[k]) else {}
  {
    TakeOne(uploads, batches, k);
    AckedNext(uploads + batches[..k], batches[k], answers);
  }

  lemma {:induction false} IdsConcat(a: seq<Event>, b: seq<Event>)
    ensures Ids(a + b) == Ids(a) + Ids(b)
  {
    if a == [] {
      assert a + b == b;
    } else {
      Tail(a, b);
      IdsConcat(a[1..], b);
    }
  }

  /** The calls for one source: up to the first that is refused. */
  ghost predicate Called(batches: seq<seq<Event>>, k: nat, calls: nat, answers: nat -> bool, first: nat) {
    && k <= |batches| && AllOk(answers, first, first + k) && (k < |batches| ==> !answers(first + k))
    && calls == first + if k < |batches| then k + 1 else k
  }

  /** A source is done exactly when every call for it was acknowledged. */
  lemma {:induction false} UploadDone(events: seq<Event>, batches: seq<seq<Event>>, k: nat, calls: nat,
                                      answers: nat -> bool, first: nat)
    requires Flatten(batches) == events && NoneEmpty(batches) && Called(batches, k, calls, answers, first)
    ensures Flatten(batches[..k]) == events <==> AllOk(answers, first, calls)
    ensures Flatten(batches[..k]) != [] ==> calls > first
  {
    if k < |batches| {
      assert !AllOk(answers, first, calls);
      FlattenNext(batches, k);
      FlattenTake(batches, k + 1);
    } else {
      assert batches[..k] == batches;
    }
  }

  lemma {:induction false} AckedMade(uploads: seq<seq<Event>>, batches: seq<seq<Event>>, k: nat, calls: nat,
                                     answers: nat -> bool)
    requires Called(batches, k, calls, answers, |uploads|)
    requires AllWithin(uploads, BatchFits) && AllWithin(batches, BatchFits)
    ensures var made := uploads + batches[..calls - |uploads|];
            && Acked(made, answers) == Acked(uploads, answers) + Ids(Flatten(batches[..k]))
            && AllWithin(made, BatchFits) && |made| == calls && uploads <= made
  {
    AckedMore(uploads, batches, k, answers);
  }

  lemma AllOkBoth(answers: nat -> bool, from: nat, middle: nat, upTo: nat)
    requires from <= middle <= upTo
    ensures AllOk(answers, from, upTo) <==> AllOk(answers, from, middle) && AllOk(answers, middle, upTo)
  {}

  ghost predicate Unsent(spool: seq<Event>, sent: set<nat>, rest: seq<Source>) {
    forall e :: e in spool && e.source in rest ==> e.seqno !in sent
  }

  ghost predicate Uploading(spool: seq<Event>, sent: set<nat>, rest: seq<Source>) {
    sent <= Ids(spool) && Unsent(spool, sent, rest) && forall source :: InOrder(spool, sent, source)
  }

  /** Whose number it is: an event of the spool with a number among these is one of them. */
  lemma {:induction false} Owner(spool: seq<Event>, high: nat, source: Source, acked: seq<Event>, f: Event)
    requires Rising(spool, 0, high) && (forall x :: x in acked ==> x in spool && x.source == source)
    requires f in spool && f.seqno in Ids(acked)
    ensures f.source == source
  {
    IdsIn(acked, f.seqno);
    var g :| g in acked && g.seqno == f.seqno;
    SameNumber(spool, 0, high, f, g);
  }

  /** The events of a source in the order of their upload. */
  ghost predicate SourceEvents(spool: seq<Event>, source: Source, events: seq<Event>) {
    Sorted(events) && forall x :: x in events <==> x in spool && x.source == source
  }

  lemma {:induction false} SortedSource(spool: seq<Event>, high: nat, source: Source)
    requires Rising(spool, 0, high)
    ensures SourceEvents(spool, source, SortByTime(Of(spool, source)))
    ensures AllFit(spool) ==> AllFit(SortByTime(Of(spool, source)))
  {
    OfRises(spool, source, 0, high);
    SortKeeps(Of(spool, source), 0, high);
    forall x ensures x in Of(spool, source) <==> x in spool && x.source == source { OfIn(spool, source, x); }
    if AllFit(spool) { AllFitSome(spool, SortByTime(Of(spool, source))); }
  }

  lemma {:induction false} UploadNext(spool: seq<Event>, high: nat, sent: set<nat>, rest: seq<Source>,
                                      events: seq<Event>, acked: seq<Event>)
    requires Rising(spool, 0, high) && Uploading(spool, sent, rest) && rest != [] && rest[0] !in rest[1..]
    requires SourceEvents(spool, rest[0], events) && acked <= events
    ensures Uploading(spool, sent + Ids(acked), rest[1..])
  {
    var source := rest[0];
    PrefixInOrder(spool, source, events, |acked|, high);
    assert acked == events[..|acked|];
    assert forall x :: x in acked ==> x in events;
    forall id | id in Ids(acked) ensures id in Ids(spool) {
      IdsIn(acked, id);
      IdsIn(spool, id);
    }
    forall e | e in spool && e.source in rest[1..] ensures e.seqno !in sent + Ids(acked) {
      if e.seqno in Ids(acked) { Owner(spool, high, source, acked, e); }
    }
    forall s ensures InOrder(spool, sent + Ids(acked), s) { OrderNext(spool, high, sent, source, acked, s); }
  }

  lemma {:induction false} OrderNext(spool: seq<Event>, high: nat, sent: set<nat>, source: Source, acked: seq<Event>,
                                     s: Source)
    requires Rising(spool, 0, high) && (forall x :: x in acked ==> x in spool && x.source == source)
    requires InOrder(spool, sent, s) && InOrder(spool, Ids(acked), source) && Unsent(spool, sent, [source])
    ensures InOrder(spool, sent + Ids(acked), s)
  {
    forall e, f | e in spool && f in spool && e.source == f.source == s && f.seqno in sent + Ids(acked) && Before(e, f)
      ensures e.seqno in sent + Ids(acked)
    {
      if f.seqno in Ids(acked) { Owner(spool, high, source, acked, f); }
    }
  }

  /** Every event of the sources that are done was sent. */
  ghost predicate Finished(spool: seq<Event>, sent: set<nat>, rest: seq<Source>) {
    forall e :: e in spool && e.source !in rest ==> e.seqno in sent
  }

  lemma {:induction false} FinishedNext(spool: seq<Event>, high: nat, sent: set<nat>, rest: seq<Source>,
                                        events: seq<Event>, acked: seq<Event>)
    requires Rising(spool, 0, high) && Unsent(spool, sent, rest) && rest != [] && rest[0] !in rest[1..]
    requires SourceEvents(spool, rest[0], events) && acked <= events
    ensures Finished(spool, sent + Ids(acked), rest[1..]) <==> Finished(spool, sent, rest) && acked == events
  {
    var more := sent + Ids(acked);
    if Finished(spool, more, rest[1..]) {
      forall e | e in spool && e.source !in rest ensures e.seqno in sent {
        NotOurs(spool, high, rest, events, acked, e);
      }
      assert acked == events[..|acked|];
      if acked != events { Missing(spool, high, sent, rest, events, |acked|); }
    }
    if Finished(spool, sent, rest) && acked == events {
      forall e | e in spool && e.source !in rest[1..] ensures e.seqno in more {
        IdsIn(acked, e.seqno);
        assert e.source in rest ==> e.source == rest[0];
      }
    }
  }

  lemma {:induction false} NotOurs(spool: seq<Event>, high: nat, rest: seq<Source>, events: seq<Event>,
                                   acked: seq<Event>, e: Event)
    requires Rising(spool, 0, high) && rest != [] && SourceEvents(spool, rest[0], events) && acked <= events
    requires e in spool && e.source !in rest
    ensures e.seqno !in Ids(acked)
  {
    assert forall x :: x in acked ==> x in events;
    if e.seqno in Ids(acked) { Owner(spool, high, rest[0], acked, e); }
  }

  /** A batch holds spooled events of one source, in their order. */
  ghost predicate Proper(spool: seq<Event>, batch: seq<Event>) {
    batch != [] && SourceBatch(spool, batch[0].source, batch)
  }

  ghost predicate SourceBatch(spool: seq<Event>, source: Source, batch: seq<Event>) {
    Sorted(batch) && forall e :: e in batch ==> e in spool && e.source == source
  }

  ghost predicate AllProper(spool: seq<Event>, batches: seq<seq<Event>>) {
    forall i :: 0 <= i < |batches| ==> Proper(spool, batches[i])
  }

  lemma {:induction false} BatchesProper(spool: seq<Event>, source: Source, batches: seq<seq<Event>>)
    requires NoneEmpty(batches) && SourceBatch(spool, source, Flatten(batches))
    ensures AllProper(spool, batches)
  {
    if batches != [] {
      var first, more, all := batches[0], Flatten(batches[1..]), Flatten(batches);
      assert all == first + more;
      assert first == all[..|first|] && more == all[|first|..];
      assert first[0] in first;
      BatchesProper(spool, source, batches[1..]);
      forall i | 0 <= i < |batches| ensures Proper(spool, batches[i]) {
        if i > 0 { assert batches[i] == batches[1..][i - 1]; }
      }
    }
  }

  lemma ProperMade(spool: seq<Event>, uploads: seq<seq<Event>>, batches: seq<seq<Event>>, n: nat)
    requires AllProper(spool, uploads) && AllProper(spool, batches) && n <= |batches|
    ensures AllProper(spool, uploads + batches[..n])
  {}

  /** What holds of a tick between two sources. */
  ghost predicate Ticking(spool: seq<Event>, gone: set<nat>, rest: seq<Source>, uploads: seq<seq<Event>>,
                          answers: nat -> bool) {
    && Ascending(rest) && Uploading(spool, gone, rest)
    && gone == Acked(uploads, answers) && AllWithin(uploads, BatchFits) && (uploads == [] ==> gone == {})
    && (AllOk(answers, 0, |uploads|) <==> Finished(spool, gone, rest)) && AllProper(spool, uploads)
  }

  lemma {:induction false} TickNext(spool: seq<Event>, high: nat, gone: set<nat>, rest: seq<Source>,
                                    uploads: seq<seq<Event>>, answers: nat -> bool, batches: seq<seq<Event>>, k: nat,
                                    calls: nat)
    requires Rising(spool, 0, high) && Ticking(spool, gone, rest, uploads, answers) && rest != []
    requires Called(batches, k, calls, answers, |uploads|) && AllWithin(batches, BatchFits) && NoneEmpty(batches)
    requires SourceEvents(spool, rest[0], Flatten(batches)) && Flatten(batches[..k]) <= Flatten(batches)
    ensures var made := uploads + batches[..calls - |uploads|];
            Ticking(spool, gone + Ids(Flatten(batches[..k])), rest[1..], made, answers)
  {
    var events, acked := Flatten(batches), Flatten(batches[..k]);
    AscendingHead(rest);
    UploadNext(spool, high, gone, rest, events, acked);
    FinishedNext(spool, high, gone, rest, events, acked);
    UploadDone(events, batches, k, calls, answers, |uploads|);
    AckedMade(uploads, batches, k, calls, answers);
    AllOkBoth(answers, 0, |uploads|, calls);
    BatchesProper(spool, rest[0], batches);
    ProperMade(spool, uploads, batches, calls - |uploads|);
  }

  /** An event that was not reached is not among the numbers sent. */
  lemma {:induction false} Missing(spool: seq<Event>, high: nat, sent: set<nat>, rest: seq<Source>,
                                   events: seq<Event>, n: nat)
    requires Rising(spool, 0, high) && Unsent(spool, sent, rest) && rest != []
    requires SourceEvents(spool, rest[0], events) && n < |events|
    ensures events[n] in spool && events[n].source == rest[0] && events[n].seqno !in sent + Ids(events[..n])
  {
    var f := events[n];
    assert f in events;
    if f.seqno in Ids(events[..n]) {
      IdsIn(events[..n], f.seqno);
      var g :| g in events[..n] && g.seqno == f.seqno;
      SameNumber(spool, 0, high, f, g);
    }
  }

  lemma {:induction false} AllGone(spool: seq<Event>, sent: set<nat>)
    ensures Without(spool, sent) == [] <==> Finished(spool, sent, [])
  {
    if spool != [] {
      AllGone(spool[1..], sent);
      if Finished(spool, sent, []) {
        assert spool[0].seqno in sent;
        assert Finished(spool[1..], sent, []);
      }
    }
  }

  /** Every source in turn, each until a batch is refused. */
  method UploadAll(spool: seq<Event>, ghost high: nat, answers: nat -> bool)
    returns (uploads: seq<seq<Event>>, gone: set<nat>)
    requires Rising(spool, 0, high) && AllFit(spool) && spool != []
    ensures Ticking(spool, gone, [], uploads, answers) && uploads != []
  {
    var rest := Sources(spool);
    uploads, gone := [], {};
    while rest != []
      invariant Ticking(spool, gone, rest, uploads, answers)
      decreases |rest|
    {
      SortedSource(spool, high, rest[0]);
      var acked, calls, batches, k := Upload(SortByTime(Of(spool, rest[0])), answers, |uploads|);
      TickNext(spool, high, gone, rest, uploads, answers, batches, k, calls);
      uploads, gone, rest := uploads + batches[..calls - |uploads|], gone + Ids(acked), rest[1..];
    }
    assert spool[0] in spool;
  }

  datatype Status = Spooled | Dropped | NotLogged

  class LogsExport {
    const limit: nat
    const interval: real
    var spool: seq<Event>
    var count: nat
    var dropped: nat
    var lastUpload: real

    function Now(): State
      reads this
    {
      State(spool, count, dropped)
    }

    ghost predicate Valid()
      reads this
    {
      Rising(spool, 0, count) && Bytes(spool) <= limit && AllFit(spool)
    }

    constructor (limit: nat, interval: real)
      ensures Valid() && Now() == START.state && this.limit == limit
    {
      this.limit, this.interval := limit, interval;
      spool, count, dropped, lastUpload := [], 0, 0, 0.0;
    }

    /** Store a line that passed the checks, redacted, in parts that fit. */
    method Log(admitted: bool, source: Source, time: real, day: int, message: string)
      returns (status: Status, parts: seq<string>)
      requires Valid()
      modifies this
      ensures Valid() && lastUpload == old(lastUpload)
      ensures !admitted ==> Now() == old(Now()) && status == NotLogged
      ensures admitted ==> status == if PartBytes(parts) > limit then Dropped else Spooled
      ensures admitted ==> Flatten(parts) == message
      ensures admitted ==>
                var line := Numbered(parts, source, time, day, old(count));
                Possible(old(Now()), Logged(line)) && Now() == StepState(old(Now()), limit, Logged(line))
    {
      if !admitted { return NotLogged, []; }
      parts := Parts(message);
      LineIsPossible(parts, source, time, day, count);
      status := Keep(parts, source, time, day, Numbered(parts, source, time, day, count));
    }

    /** The parts of a line go into the spool, which makes room for them, or are all dropped. */
    method Keep(parts: seq<string>, source: Source, time: real, day: int, ghost line: seq<Event>)
      returns (status: Status)
      requires Valid() && line == Numbered(parts, source, time, day, count)
      requires Possible(Now(), Logged(line)) && Bytes(line) == PartBytes(parts)
      modifies this`spool, this`count, this`dropped
      ensures Valid() && Now() == AfterLog(old(Now()), limit, line)
      ensures status == if PartBytes(parts) > limit then Dropped else Spooled
    {
      if PartBytes(parts) > limit {
        dropped := dropped + |parts|;
        return Dropped;
      }
      StoredIsValid(spool, line, count, limit);
      Store(parts, source, time, day);
      MakeRoom();
      status := Spooled;
    }

    method Store(parts: seq<string>, source: Source, time: real, day: int)
      modifies this`spool, this`count
      ensures spool == old(spool) + Numbered(parts, source, time, day, old(count)) && count == old(count) + |parts|
    {
      var rest := parts;
      while rest != []
        invariant |rest| <= |parts| && count + |rest| == old(count) + |parts|
        invariant spool + Numbered(rest, source, time, day, count) ==
                  old(spool) + Numbered(parts, source, time, day, old(count))
        decreases |rest|
      {
        count := count + 1;
        Assoc(spool, [Event(count, source, time, day, rest[0])], Numbered(rest[1..], source, time, day, count));
        spool := spool + [Event(count, source, time, day, rest[0])];
        rest := rest[1..];
      }
    }

    /** Drop the oldest events until the rest fits. */
    method MakeRoom()
      modifies this`spool, this`dropped
      ensures spool == Trim(old(spool), limit) && dropped == old(dropped) + |old(spool)| - |spool|
    {
      while Bytes(spool) > limit
        invariant Trim(spool, limit) == Trim(old(spool), limit) && dropped + |spool| == old(dropped) + |old(spool)|
        decreases |spool|
      {
        spool, dropped := spool[1..], dropped + 1;
      }
    }

    /** Upload what is due: the acknowledged numbers leave the spool, each source's in order, and all
        of them do exactly when no call was refused. */
    method Tick(now: real, answers: nat -> bool) returns (uploads: seq<seq<Event>>, sent: set<nat>)
      requires Valid()
      modifies this
      ensures Valid() && Possible(old(Now()), Ticked(sent)) && Now() == StepState(old(Now()), limit, Ticked(sent))
      ensures sent == Acked(uploads, answers) && AllWithin(uploads, BatchFits) && AllProper(old(spool), uploads)
      ensures if old(spool) == [] || now - old(lastUpload) < interval
              then uploads == [] && lastUpload == old(lastUpload)
              else uploads != [] && lastUpload == now && (spool == [] <==> AllOk(answers, 0, |uploads|))
    {
      uploads, sent := [], {};
      if spool == [] || now - lastUpload < interval {
        NothingSent(spool, 0, count);
        return;
      }
      lastUpload := now;
      uploads, sent := UploadAll(spool, count, answers);
      WithoutKeeps(spool, sent, 0, count);
      AllGone(spool, sent);
      spool := Without(spool, sent);
    }
  }

  function PartBytes(parts: seq<string>): nat { if parts == [] then 0 else Size(parts[0]) + PartBytes(parts[1..]) }

  lemma {:induction false} LineIsPossible(parts: seq<string>, source: Source, time: real, day: int, count: nat)
    requires AllWithin(parts, LineFits)
    ensures var line := Numbered(parts, source, time, day, count);
            && Rising(line, count, count + |line|) && Bytes(line) == PartBytes(parts)
            && AllFit(line)
  {
    NumberedRises(parts, source, time, day, count);
    if parts != [] {
      LineIsPossible(parts[1..], source, time, day, count + 1);
      var e, rest := Event(count + 1, source, time, day, parts[0]), Numbered(parts[1..], source, time, day, count + 1);
      assert ([e] + rest)[1..] == rest;
    }
  }

  lemma {:induction false} StoredIsValid(spool: seq<Event>, line: seq<Event>, count: nat, limit: nat)
    requires Rising(spool, 0, count) && Rising(line, count, count + |line|)
    requires AllFit(spool) && AllFit(line)
    ensures Rising(Trim(spool + line, limit), 0, count + |line|)
    ensures AllFit(Trim(spool + line, limit))
  {
    AllFitBoth(spool, line);
    RisingConcat(spool, line, 0, count, count + |line|);
    TrimKeeps(spool + line, limit, 0, count + |line|);
  }

  lemma NothingSent(spool: seq<Event>, low: nat, high: nat)
    requires Rising(spool, low, high)
    ensures Without(spool, {}) == spool
  {
    if spool != [] { NothingSent(spool[1..], spool[0].seqno, high); }
  }
}
