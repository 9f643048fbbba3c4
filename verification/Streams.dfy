/** Durable streams: numbered messages in a store of bounded size. */
module Streams {
  import opened Common

  const OVERHEAD := 64  // charged per message

  datatype Message = Message(sequence: nat, cost: nat)

  datatype Strategy = RejectNewData | OverwriteOldestData

  datatype Stream = Stream(maxSize: nat, strategy: Strategy, memory: bool,
                           messages: seq<Message>, next: nat, oldest: nat, exported: int)

  datatype Error = Exists | Invalid | NotFound | TooFull | Evicted(oldest: nat) | NotEnough

  datatype Answer = Done | Appended(sequence: nat) | Sequences(found: seq<nat>) | Exported(exported: int)
    | Description(oldest: nat, newest: int, exported_: int, bytes: nat) | Failed(error: Error)

  function Bytes(messages: seq<Message>): nat {
    if messages == [] then 0 else messages[0].cost + Bytes(messages[1..])
  }

  /** What is left once the oldest messages have made room for `cost` more bytes. */
  function Remaining(messages: seq<Message>, cost: nat, maxSize: nat): seq<Message>
    requires cost <= maxSize
  {
    if Bytes(messages) + cost <= maxSize then messages else Remaining(messages[1..], cost, maxSize)
  }

  function Append(s: Stream, size: int): (Stream, Answer) {
    var cost := size + OVERHEAD;
    if cost > s.maxSize || size < 1 then (s, Failed(Invalid))
    else if s.strategy.RejectNewData? && Bytes(s.messages) + cost > s.maxSize then (s, Failed(TooFull))
    else
      var kept := Remaining(s.messages, cost, s.maxSize);
      (s.(messages := kept + [Message(s.next, cost)], next := s.next + 1,
          oldest := if kept == [] then s.next else kept[0].sequence),
       Appended(s.next))
  }

  /** The sequence numbers at or after `start`. */
  function From(messages: seq<Message>, start: int): seq<nat> {
    if messages == [] then []
    else (if messages[0].sequence >= start then [messages[0].sequence] else []) + From(messages[1..], start)
  }

  function Read(s: Stream, start: int, min: int, max: int): Answer {
    if min < 1 || max < min then Failed(Invalid)
    else if start < s.oldest then Failed(Evicted(s.oldest))
    else
      var all := From(s.messages, start);
      var found := if |all| <= max then all else all[..max];
      if |found| < min then Failed(NotEnough) else Sequences(found)
  }

  function Acknowledge(s: Stream, sequence: int): (Stream, Answer) {
    if sequence >= s.next then (s, Failed(Invalid))
    else
      var e := if s.exported >= sequence then s.exported else sequence;
      (s.(exported := e), Exported(e))
  }

  /** A restart empties a memory stream; its numbers go on. */
  function Restarted(s: Stream): Stream {
    if s.memory then s.(messages := [], oldest := s.next) else s
  }

  // --- The ring ----------------------------------------------------------------------------------

  /** The messages carry the consecutive numbers oldest..next-1 and fit. */
  ghost predicate Valid(s: Stream) {
    && Consecutive(s.messages, s.oldest) && s.oldest + |s.messages| == s.next
    && Bytes(s.messages) <= s.maxSize
  }

  ghost predicate Consecutive(messages: seq<Message>, first: nat) {
    messages == [] || (messages[0].sequence == first && Consecutive(messages[1..], first + 1))
  }

  lemma {:induction false} ConsecutiveAt(messages: seq<Message>, first: nat, i: nat)
    requires Consecutive(messages, first) && i < |messages|
    ensures messages[i].sequence == first + i
  {
    if i > 0 { ConsecutiveAt(messages[1..], first + 1, i - 1); }
  }

  lemma {:induction false} ConsecutiveAppend(messages: seq<Message>, first: nat, m: Message)
    requires Consecutive(messages, first) && m.sequence == first + |messages|
    ensures Consecutive(messages + [m], first) && Bytes(messages + [m]) == Bytes(messages) + m.cost
  {
    if messages == [] {
      assert [] + [m] == [m] && [m][1..] == [];
    } else {
      Tail(messages, [m]);
      ConsecutiveAppend(messages[1..], first + 1, m);
    }
  }

  /** Eviction drops the shortest beginning that makes room. */
  lemma {:induction false} RemainingIsShortest(messages: seq<Message>, first: nat, cost: nat, maxSize: nat)
    returns (n: nat)
    requires cost <= maxSize && Consecutive(messages, first)
    ensures n <= |messages| && Remaining(messages, cost, maxSize) == messages[n..]
    ensures Consecutive(messages[n..], first + n) && Bytes(messages[n..]) + cost <= maxSize
    ensures forall k :: 0 <= k < n ==> Bytes(messages[k..]) + cost > maxSize
  {
    if Bytes(messages) + cost <= maxSize {
      n := 0;
      assert messages[0..] == messages;
    } else {
      var m := RemainingIsShortest(messages[1..], first + 1, cost, maxSize);
      n := m + 1;
      assert messages[1..][m..] == messages[n..];
      forall k | 0 <= k < n ensures Bytes(messages[k..]) + cost > maxSize {
        if k == 0 { assert messages[0..] == messages; } else { assert messages[k..] == messages[1..][k - 1..]; }
      }
    }
  }

  lemma AppendRoom(s: Stream, cost: nat) returns (evicted: nat)
    requires Valid(s) && cost <= s.maxSize
    ensures evicted <= |s.messages| && Remaining(s.messages, cost, s.maxSize) == s.messages[evicted..]
    ensures Consecutive(s.messages[evicted..] + [Message(s.next, cost)], s.oldest + evicted)
    ensures Bytes(s.messages[evicted..] + [Message(s.next, cost)]) <= s.maxSize
    ensures forall k :: 0 <= k < evicted ==> Bytes(s.messages[k..]) + cost > s.maxSize
  {
    evicted := RemainingIsShortest(s.messages, s.oldest, cost, s.maxSize);
    ConsecutiveAppend(s.messages[evicted..], s.oldest + evicted, Message(s.next, cost));
  }

  lemma AppendKeeps(s: Stream, size: int) returns (evicted: nat)
    requires Valid(s)
    ensures var (t, answer) := Append(s, size);
            && Valid(t)
            && (answer.Failed? ==> t == s)
            && (answer.Appended? ==> && answer.sequence == s.next && t.next == s.next + 1 && evicted <= |s.messages|
                                     && t.messages == s.messages[evicted..] + [Message(s.next, size + OVERHEAD)]
                                     && (forall k :: 0 <= k < evicted ==>
                                         Bytes(s.messages[k..]) + size + OVERHEAD > s.maxSize)
                                     && (s.strategy.RejectNewData? ==> evicted == 0))
  {
    var (t, answer) := Append(s, size);
    evicted := 0;
    if answer.Appended? {
      evicted := AppendRoom(s, size + OVERHEAD);
      assert s.messages[0..] == s.messages;
    }
  }

  /** The numbers `lo`, `lo + 1`, ..., up to but not including `hi`. */
  function Range(lo: int, hi: int): (r: seq<int>)
    ensures |r| == if lo <= hi then hi - lo else 0
    ensures forall i :: 0 <= i < |r| ==> r[i] == lo + i
  {
    if lo >= hi then [] else seq(hi - lo, i => lo + i)
  }

  lemma {:induction false} FromIsRange(messages: seq<Message>, first: nat, start: int)
    requires Consecutive(messages, first) && first <= start
    ensures From(messages, start) == Range(start, first + |messages|)
  {
    if messages != [] {
      if start == first {
        FromAll(messages[1..], first + 1, start);
        assert Range(start, first + |messages|) == [first] + Range(first + 1, first + |messages|);
      } else {
        FromIsRange(messages[1..], first + 1, start);
      }
    }
  }

  lemma {:induction false} FromAll(messages: seq<Message>, first: nat, start: int)
    requires Consecutive(messages, first) && start <= first
    ensures From(messages, start) == Range(first, first + |messages|)
  {
    if messages != [] {
      FromAll(messages[1..], first + 1, start);
      assert Range(first, first + |messages|) == [first] + Range(first + 1, first + |messages|);
    }
  }

  /** A read returns the next numbers without a gap, says there are too few, or says what it asks
      for has been evicted. */
  lemma ReadMeaning(s: Stream, start: int, min: int, max: int)
    requires Valid(s) && 1 <= min <= max
    ensures Read(s, start, min, max) ==
              if start < s.oldest then Failed(Evicted(s.oldest))
              else if s.next - start < min then Failed(NotEnough)
              else Sequences(Range(start, if s.next - start <= max then s.next else start + max))
  {
    if start >= s.oldest {
      FromIsRange(s.messages, s.oldest, start);
      var all := From(s.messages, start);
      if |all| > max { assert all[..max] == Range(start, start + max); }
    }
  }

  // --- All runs with a reader ------------------------------------------------------------------------

  datatype Event = Add(size: int) | Ack(sequence: int) | Restart | Poll(min: int, max: int)

  /** A stream and a reader that resumes after the last number it has seen; `evicted` once it
      has been told that it fell behind. */
  datatype World = World(stream: Stream, seen: seq<int>, cursor: int, evicted: bool)

  function Step(w: World, e: Event): World {
    match e
    case Add(size) => w.(stream := Append(w.stream, size).0)
    case Ack(sequence) => w.(stream := Acknowledge(w.stream, sequence).0)
    case Restart => w.(stream := Restarted(w.stream))
    case Poll(min, max) =>
      match Read(w.stream, w.cursor, min, max)
      case Sequences(found) =>
        if found == [] then w else w.(seen := w.seen + found, cursor := found[|found| - 1] + 1)
      case Failed(Evicted(_)) => w.(evicted := true)
      case _ => w
  }

  function Run(w: World, events: seq<Event>): World
    decreases |events|
  {
    if events == [] then w else Run(Step(w, events[0]), events[1..])
  }

  /** The stream is in order; the reader has seen every number from `start` to its cursor, once and in order. */
  ghost predicate Good(w: World, start: int) {
    Valid(w.stream) && start <= w.cursor && w.seen == Range(start, w.cursor)
  }

  lemma AddKeeps(s: Stream, size: int)
    requires Valid(s)
    ensures var t := Append(s, size).0; Valid(t) && s.next <= t.next && s.oldest <= t.oldest
  {
    var evicted := AppendKeeps(s, size);
    if evicted < |s.messages| { ConsecutiveAt(s.messages, s.oldest, evicted); }
  }

  lemma PollKeeps(w: World, v: World, min: int, max: int, start: int)
    requires Good(w, start) && 1 <= min <= max && v == Step(w, Poll(min, max))
    ensures Good(v, start) && v.stream == w.stream && (v.evicted <==> w.evicted || w.cursor < w.stream.oldest)
  {
    ReadMeaning(w.stream, w.cursor, min, max);
    if v.cursor != w.cursor { RangeConcat(start, w.cursor, v.cursor); }
  }

  lemma RangeConcat(a: int, b: int, c: int)
    requires a <= b <= c
    ensures Range(a, b) + Range(b, c) == Range(a, c)
  {}

  lemma StepKeeps(w: World, e: Event, start: int)
    requires Good(w, start)
    ensures Good(Step(w, e), start)
    ensures Step(w, e).stream.next >= w.stream.next && Step(w, e).stream.oldest >= w.stream.oldest
    ensures e.Poll? && 1 <= e.min <= e.max ==> (Step(w, e).evicted <==> w.evicted || w.cursor < w.stream.oldest)
  {
    match e
    case Add(size) => AddKeeps(w.stream, size);
    case Ack(_) =>
    case Restart =>
    case Poll(min, max) => if 1 <= min <= max { PollKeeps(w, Step(w, e), min, max, start); }
  }

  /** Whatever is appended, evicted and restarted in between: the numbers retained stay the
      consecutive newest ones within the size, and the reader misses nothing without being told. */
  lemma {:induction false} RunKeeps(w: World, events: seq<Event>, start: int)
    requires Good(w, start)
    ensures Good(Run(w, events), start)
    decreases |events|
  {
    if events != [] {
      StepKeeps(w, events[0], start);
      RunKeeps(Step(w, events[0]), events[1..], start);
    }
  }

  /** A new stream, and a reader that has seen nothing and will start at `start`. */
  function Fresh(maxSize: nat, strategy: Strategy, memory: bool, start: int): World {
    World(Stream(maxSize, strategy, memory, [], 0, 0, -1), [], start, false)
  }

  ghost predicate ToldRightly(w: World) { w.evicted ==> w.cursor < w.stream.oldest }

  lemma StepTells(w: World, e: Event, start: int)
    requires Good(w, start) && ToldRightly(w)
    ensures ToldRightly(Step(w, e))
    ensures e.Poll? && 1 <= e.min <= e.max ==> (Step(w, e).evicted <==> Step(w, e).cursor < Step(w, e).stream.oldest)
  {
    StepKeeps(w, e, start);
    if e.Poll? && 1 <= e.min <= e.max { ReadMeaning(w.stream, w.cursor, e.min, e.max); }
  }

  lemma {:induction false} RunTells(w: World, events: seq<Event>, start: int)
    requires Good(w, start) && ToldRightly(w)
    ensures ToldRightly(Run(w, events))
    decreases |events|
  {
    if events != [] {
      StepKeeps(w, events[0], start);
      StepTells(w, events[0], start);
      RunTells(Step(w, events[0]), events[1..], start);
    }
  }

  /** After every run on a new stream: its messages are the consecutive newest ones within the size;
      the reader has seen every number from its start to its cursor once and in order; and its next
      read tells it of an eviction if and only if it has fallen behind. */
  lemma EveryRunIsGood(maxSize: nat, strategy: Strategy, memory: bool, start: int, events: seq<Event>, min: int,
                       max: int)
    requires 1 <= min <= max
    ensures var w := Run(Fresh(maxSize, strategy, memory, start), events);
            var v := Step(w, Poll(min, max));
            && Valid(w.stream) && w.seen == Range(start, w.cursor)
            && (v.evicted <==> v.cursor < v.stream.oldest)
  {
    var begin := Fresh(maxSize, strategy, memory, start);
    RunKeeps(begin, events, start);
    RunTells(begin, events, start);
    StepTells(Run(begin, events), Poll(min, max), start);
  }

  // --- The store object -----------------------------------------------------------------------------------

  predicate NameChar(c: char) {
    'a' <= c <= 'z' || 'A' <= c <= 'Z' || '0' <= c <= '9' || c in " ,._-"
  }

  predicate NameBody(n: string) { 1 <= |n| <= 255 && forall i :: 0 <= i < |n| ==> NameChar(n[i]) }

  predicate ValidName(n: string) {
    NameBody(n) || (|n| > 1 && n[|n| - 1] == '\n' && NameBody(n[..|n| - 1]))
  }

  class StreamStore {
    var streams: map<string, Stream>

    /** Every stream is in order. */
    ghost predicate AllValid()
      reads this
    {
      forall n :: n in streams ==> Valid(streams[n])
    }

    constructor ()
      ensures AllValid() && streams == map[]
    {
      streams := map[];
    }

    method Create(name: string, maxSize: int, strategy: Strategy, memory: bool) returns (r: Answer)
      requires AllValid()
      modifies this
      ensures AllValid()
      ensures if name in old(streams) then r == Failed(Exists) && streams == old(streams)
              else if !ValidName(name) || maxSize < 1024 then r == Failed(Invalid) && streams == old(streams)
              else r == Done && streams == old(streams)[name := Stream(maxSize, strategy, memory, [], 0, 0, -1)]
    {
      if name in streams { return Failed(Exists); }
      if !ValidName(name) || maxSize < 1024 { return Failed(Invalid); }
      streams := streams[name := Stream(maxSize, strategy, memory, [], 0, 0, -1)];
      return Done;
    }

    /** The append with its eviction loop. */
    method AppendTo(name: string, size: int) returns (r: Answer)
      requires AllValid()
      modifies this
      ensures AllValid()
      ensures if name !in old(streams) then r == Failed(NotFound) && streams == old(streams)
              else var (stream, answer) := Append(old(streams)[name], size);
                   r == answer && streams == old(streams)[name := stream]
    {
      if name !in streams { return Failed(NotFound); }
      var s := streams[name];
      ghost var evicted := AppendKeeps(s, size);
      var cost := size + OVERHEAD;
      if cost > s.maxSize || size < 1 {
        assert streams == streams[name := s];
        return Failed(Invalid);
      }
      var messages, oldest := s.messages, s.oldest;
      while Bytes(messages) + cost > s.maxSize
        invariant Remaining(messages, cost, s.maxSize) == Remaining(s.messages, cost, s.maxSize)
        invariant s.strategy.RejectNewData? ==> messages == s.messages
        invariant oldest == if messages == [] then s.next else messages[0].sequence
        decreases |messages|
      {
        if s.strategy.RejectNewData? {
          assert streams == streams[name := s];
          return Failed(TooFull);
        }
        messages := messages[1..];
        oldest := if messages == [] then s.next else messages[0].sequence;
      }
      var sequence := s.next;
      messages := messages + [Message(sequence, cost)];
      streams := streams[name := s.(messages := messages, next := sequence + 1,
                                    oldest := if |messages| == 1 then sequence else oldest)];
      return Appended(sequence);
    }

    method RestartAll()
      requires AllValid()
      modifies this
      ensures AllValid() && streams.Keys == old(streams).Keys
      ensures forall n :: n in streams ==> streams[n] == Restarted(old(streams)[n])
    {
      streams := map n | n in streams :: Restarted(streams[n]);
    }
  }
}
