/** CloudWatch log upload: long lines become several events, events become PutLogEvents calls. */
module LogBatching {
  import opened Common
  import opened Greedy
  import Utf8

  const BATCH_EVENTS := 10000
  const BATCH_BYTES := 1048576
  const EVENT_OVERHEAD := 26
  const EVENT_BYTES := 262144

  /** Sources are names that are only compared with each other. */
  type Source = nat

  /** A spooled line with its time and the UTC day of that. */
  datatype Event = Event(seqno: nat, source: Source, time: real, day: int, message: string)

  function Size(message: string): nat { Utf8.Size(message) + EVENT_OVERHEAD }

  predicate LineFits(s: string) { Size(s) <= EVENT_BYTES }

  // --- Splitting one line --------------------------------------------------------

  lemma {:induction false} SliceSize(s: string, i: nat, j: nat)
    requires i <= j <= |s|
    ensures Utf8.Size(s[i..j]) <= Utf8.Size(s)
  {
    Utf8.SizeConcat(s[..i], s[i..]);
    Utf8.SizeConcat(s[i..j], s[j..]);
    assert s == s[..i] + s[i..] && s[i..] == s[i..j] + s[j..];
  }

  lemma LineFitsHereditary()
    ensures Hereditary(LineFits)
  {
    forall s: string, i, j {:trigger LineFits(s[i..j])} | 0 <= i <= j <= |s| && LineFits(s) ensures LineFits(s[i..j]) {
      SliceSize(s, i, j);
    }
  }

  /** What holds of the parts cut off and the rest of the line. */
  ghost predicate Splitting(parts: seq<string>, rest: string, message: string) {
    && Flatten(parts) + rest == message && AllWithin(parts, LineFits)
    && if rest == [] then parts == [] else Filled(parts + [rest], LineFits)
  }

  /** Cut a line into the fewest consecutive events that fit, only between characters. */
  method Split(message: string) returns (parts: seq<string>)
    ensures Flatten(parts) == message
    ensures AllWithin(parts, LineFits)
    ensures forall other: seq<string> ::
              other != [] && Flatten(other) == message && AllWithin(other, LineFits) ==> |parts| <= |other|
  {
    var data, limit := Utf8.Encode(message), EVENT_BYTES - EVENT_OVERHEAD;
    parts := [];
    ghost var rest := message;
    while |data| > limit
      invariant Utf8.Encode(rest) == data && Splitting(parts, rest, message)
      decreases |data|
    {
      var cut := CutPoint(data, rest);
      ghost var n := SplitNext(parts, rest, message, cut);
      parts := parts + [Utf8.Decode(data[..cut]).value];
      data := data[cut..];
      rest := rest[n..];
    }
    SplitEnd(parts, rest, message);
    parts := parts + [Utf8.Decode(data).value];
  }

  lemma SplitNext(parts: seq<string>, rest: string, message: string, cut: nat) returns (n: nat)
    requires Splitting(parts, rest, message)
    requires 0 < cut <= EVENT_BYTES - EVENT_OVERHEAD < |Utf8.Encode(rest)| && !Utf8.Continuation(Utf8.Encode(rest)[cut])
    requires forall i :: cut < i <= EVENT_BYTES - EVENT_OVERHEAD ==> Utf8.Continuation(Utf8.Encode(rest)[i])
    ensures n < |rest| && Utf8.Decode(Utf8.Encode(rest)[..cut]) == Some(rest[..n])
    ensures Utf8.Encode(rest[n..]) == Utf8.Encode(rest)[cut..] && Splitting(parts + [rest[..n]], rest[n..], message)
  {
    n := NextPart(parts, rest, cut);
  }

  lemma SplitEnd(parts: seq<string>, rest: string, message: string)
    requires Splitting(parts, rest, message) && |Utf8.Encode(rest)| <= EVENT_BYTES - EVENT_OVERHEAD
    ensures Utf8.Decode(Utf8.Encode(rest)) == Some(rest)
    ensures Flatten(parts + [rest]) == message && AllWithin(parts + [rest], LineFits)
    ensures forall other: seq<string> ::
              other != [] && Flatten(other) == message && AllWithin(other, LineFits) ==> |parts + [rest]| <= |other|
  {
    Utf8.DecodeEncode(rest);
    Utf8.SizeIsLength(rest);
    FlattenOne(parts, rest);
    FewestParts(parts + [rest], message);
  }

  /** Step back from the limit to the start of a character. */
  method CutPoint(data: seq<byte>, ghost line: string) returns (cut: nat)
    requires data == Utf8.Encode(line) && |data| > EVENT_BYTES - EVENT_OVERHEAD
    ensures 0 < cut <= EVENT_BYTES - EVENT_OVERHEAD && !Utf8.Continuation(data[cut])
    ensures forall i :: cut < i <= EVENT_BYTES - EVENT_OVERHEAD ==> Utf8.Continuation(data[i])
  {
    var limit := EVENT_BYTES - EVENT_OVERHEAD;
    cut := limit;
    Utf8.RunOfContinuations(line, limit);
    while Utf8.Continuation(data[cut])
      invariant limit - 3 <= cut <= limit
      invariant forall i :: cut < i <= limit ==> Utf8.Continuation(data[i])
      decreases cut
    {
      cut := cut - 1;
    }
  }

  lemma NextPart(parts: seq<string>, rest: string, cut: nat) returns (n: nat)
    requires rest != [] && Filled(parts + [rest], LineFits)
    requires 0 < cut <= EVENT_BYTES - EVENT_OVERHEAD < |Utf8.Encode(rest)| && !Utf8.Continuation(Utf8.Encode(rest)[cut])
    requires forall i :: cut < i <= EVENT_BYTES - EVENT_OVERHEAD ==> Utf8.Continuation(Utf8.Encode(rest)[i])
    ensures n < |rest| && LineFits(rest[..n])
    ensures Utf8.Decode(Utf8.Encode(rest)[..cut]) == Some(rest[..n])
    ensures Utf8.Encode(rest[n..]) == Utf8.Encode(rest)[cut..]
    ensures Flatten(parts + [rest[..n]]) + rest[n..] == Flatten(parts) + rest
    ensures Filled(parts + [rest[..n]] + [rest[n..]], LineFits)
  {
    n := Utf8.Boundary(rest, cut);
    Utf8.DecodeEncode(rest[..n]);
    CutIsFull(rest, n, cut, EVENT_BYTES - EVENT_OVERHEAD);
    Utf8.SizeIsLength(rest[..n]);
    FlattenOne(parts, rest[..n]);
    assert rest == rest[..n] + rest[n..];
    FilledReplaceLast(parts, rest, rest[..n], LineFits);
    FilledNext(parts, rest[..n], rest[n..], LineFits);
  }

  lemma FewestParts(parts: seq<string>, message: string)
    requires Flatten(parts) == message
    requires Filled(parts, LineFits) || |parts| == 1
    ensures forall other: seq<string> ::
              other != [] && Flatten(other) == message && AllWithin(other, LineFits) ==> |parts| <= |other|
  {
    LineFitsHereditary();
    forall other: seq<string> | other != [] && Flatten(other) == message && AllWithin(other, LineFits)
      ensures |parts| <= |other|
    {
      if |parts| > 1 { FewestPieces(parts, other, LineFits); }
    }
  }

  /** The character after the cut would not have fitted. */
  lemma CutIsFull(rest: string, n: nat, cut: nat, limit: nat)
    requires n <= |rest| && limit == EVENT_BYTES - EVENT_OVERHEAD && 0 < cut <= limit < |Utf8.Encode(rest)|
    requires Utf8.Encode(rest[..n]) == Utf8.Encode(rest)[..cut] && Utf8.Encode(rest[n..]) == Utf8.Encode(rest)[cut..]
    requires forall i :: cut < i <= limit ==> Utf8.Continuation(Utf8.Encode(rest)[i])
    ensures 0 < n < |rest| && !LineFits(rest[..n] + [rest[n]])
  {
    NextStarts(rest, n, cut);
    Utf8.EncodeConcat(rest[..n], [rest[n]]);
    Utf8.SizeIsLength(rest[..n] + [rest[n]]);
    ConcatMapOne(Utf8.EncodeChar, rest[n]);
  }

  lemma NextStarts(rest: string, n: nat, cut: nat)
    requires n < |rest| && cut <= |Utf8.Encode(rest)|
    requires Utf8.Encode(rest[n..]) == Utf8.Encode(rest)[cut..]
    ensures var next := cut + |Utf8.EncodeChar(rest[n])|;
            next < |Utf8.Encode(rest)| ==> !Utf8.Continuation(Utf8.Encode(rest)[next])
  {
    var c, data, t := Utf8.EncodeChar(rest[n]), Utf8.Encode(rest), Utf8.Encode(rest[n + 1..]);
    assert rest[n..][1..] == rest[n + 1..];
    assert data[cut..] == c + t;
    if cut + |c| < |data| {
      assert data[cut + |c|] == data[cut..][|c|] == t[0];
      Utf8.CharShape(rest[n + 1]);
    }
  }

  // --- Batching events -----------------------------------------------------------

  function Bytes(events: seq<Event>): nat {
    if events == [] then 0 else Size(events[0].message) + Bytes(events[1..])
  }

  lemma {:induction false} BytesConcat(a: seq<Event>, b: seq<Event>)
    ensures Bytes(a + b) == Bytes(a) + Bytes(b)
  {
    if a == [] {
      assert a + b == b;
    } else {
      Tail(a, b);
      BytesConcat(a[1..], b);
    }
  }

  /** What one PutLogEvents call may carry. */
  ghost predicate BatchFits(batch: seq<Event>) {
    && |batch| <= BATCH_EVENTS
    && Bytes(batch) <= BATCH_BYTES
    && SameDay(batch)
  }

  ghost predicate SameDay(batch: seq<Event>) {
    forall i :: 0 <= i < |batch| ==> batch[i].day == batch[0].day
  }

  lemma BatchFitsHereditary()
    ensures Hereditary(BatchFits)
  {
    forall s: seq<Event>, i, j {:trigger BatchFits(s[i..j])}
        | 0 <= i <= j <= |s| && BatchFits(s) ensures BatchFits(s[i..j]) {
      BytesSlice(s, i, j);
      SameDaySlice(s, i, j);
    }
  }

  lemma BytesSlice(s: seq<Event>, i: nat, j: nat)
    requires i <= j <= |s|
    ensures Bytes(s[i..j]) <= Bytes(s)
  {
    var t := s[..j];
    assert s == t + s[j..];
    BytesConcat(t, s[j..]);
    assert t == t[..i] + s[i..j];
    BytesConcat(t[..i], s[i..j]);
  }

  lemma SameDaySlice(s: seq<Event>, i: nat, j: nat)
    requires i <= j <= |s| && SameDay(s)
    ensures SameDay(s[i..j])
  {
    assert forall k :: 0 <= k < j - i ==> s[i..j][k] == s[i + k];
  }

  /** Every batch is nonempty and carries the day of all its events. */
  ghost predicate Dated(days: seq<int>, batches: seq<seq<Event>>) {
    && |days| == |batches|
    && forall k :: 0 <= k < |days| ==> batches[k] != [] && SameDay(batches[k]) && batches[k][0].day == days[k]
  }

  /** What holds of the closed batches and the open one after `done` events. */
  ghost predicate Progress(days: seq<int>, out: seq<seq<Event>>, batch: seq<Event>, done: seq<Event>) {
    && Flatten(out) + batch == done
    && AllWithin(out, BatchFits) && BatchFits(batch) && Dated(days, out)
    && if batch == [] then out == [] else Filled(out + [batch], BatchFits)
  }

  /** Consecutive events into the fewest permitted batches; refused exactly when an event was never split. */
  method Batches(events: seq<Event>) returns (days: seq<int>, r: Option<seq<seq<Event>>>)
    ensures r.Some? <==> forall i :: 0 <= i < |events| ==> LineFits(events[i].message)
    ensures r.Some? ==> Flatten(r.value) == events && AllWithin(r.value, BatchFits) && Dated(days, r.value)
    ensures r.Some? ==> forall other :: Flatten(other) == events && AllWithin(other, BatchFits) ==> |r.value| <= |other|
  {
    var out: seq<seq<Event>>, batch: seq<Event>, size: nat, day := [], [], 0, 0;
    days := [];
    for k := 0 to |events|
      invariant forall i :: 0 <= i < k ==> LineFits(events[i].message)
      invariant Batching(days, out, batch, size, day, events[..k])
    {
      var event := events[k];
      if !LineFits(event.message) { return [], None; }
      BatchNext(days, out, batch, size, day, events[..k], event);
      assert events[..k + 1] == events[..k] + [event];
      if batch != [] && (event.day != day || |batch| == BATCH_EVENTS || size + Size(event.message) > BATCH_BYTES) {
        out, days := out + [batch], days + [day];
        batch, size := [event], Size(event.message);
      } else {
        batch, size := batch + [event], size + Size(event.message);
      }
      day := event.day;
    }
    assert events[..|events|] == events;
    if batch != [] {
      Finish(days, out, batch, events);
      out, days := out + [batch], days + [day];
    }
    r := Some(out);
  }

  /** With the running size and day of the open batch. */
  ghost predicate Batching(days: seq<int>, out: seq<seq<Event>>, batch: seq<Event>, size: nat, day: int,
                           done: seq<Event>) {
    Progress(days, out, batch, done) && size == Bytes(batch) && (batch != [] ==> day == batch[0].day)
  }

  lemma BatchNext(days: seq<int>, out: seq<seq<Event>>, batch: seq<Event>, size: nat, day: int, done: seq<Event>,
                  event: Event)
    requires Batching(days, out, batch, size, day, done) && LineFits(event.message)
    ensures var s := Size(event.message);
            if batch != [] && (event.day != day || |batch| == BATCH_EVENTS || size + s > BATCH_BYTES)
            then Batching(days + [day], out + [batch], [event], s, event.day, done + [event])
            else Batching(days, out, batch + [event], size + s, event.day, done + [event])
  {
    Advance(days, out, batch, done, event);
  }

  lemma Finish(days: seq<int>, out: seq<seq<Event>>, batch: seq<Event>, events: seq<Event>)
    requires Progress(days, out, batch, events) && batch != []
    ensures Flatten(out + [batch]) == events && AllWithin(out + [batch], BatchFits)
    ensures Dated(days + [batch[0].day], out + [batch])
    ensures forall other :: Flatten(other) == events && AllWithin(other, BatchFits) ==> |out + [batch]| <= |other|
  {
    FlattenOne(out, batch);
    FewestBatches(out + [batch], events);
  }

  /** The loop's test, for a nonempty open batch: there is no room left for the event. */
  predicate Closes(batch: seq<Event>, event: Event) {
    batch != [] &&
    (event.day != batch[0].day || |batch| >= BATCH_EVENTS || Bytes(batch) + Size(event.message) > BATCH_BYTES)
  }

  lemma Advance(days: seq<int>, out: seq<seq<Event>>, batch: seq<Event>, done: seq<Event>, event: Event)
    requires Progress(days, out, batch, done) && LineFits(event.message)
    ensures Closes(batch, event) ==> Progress(days + [batch[0].day], out + [batch], [event], done + [event])
    ensures !Closes(batch, event) ==> Progress(days, out, batch + [event], done + [event])
    ensures Bytes(batch + [event]) == Bytes(batch) + Size(event.message) && Bytes([event]) == Size(event.message)
  {
    BytesConcat(batch, [event]);
    Fits(batch, event);
    if Closes(batch, event) {
      CloseBatch(days, out, batch, done, event);
    } else if batch != [] {
      FilledReplaceLast(out, batch, batch + [event], BatchFits);
    }
  }

  lemma CloseBatch(days: seq<int>, out: seq<seq<Event>>, batch: seq<Event>, done: seq<Event>, event: Event)
    requires Progress(days, out, batch, done) && batch != [] && !BatchFits(batch + [event]) && LineFits(event.message)
    ensures Progress(days + [batch[0].day], out + [batch], [event], done + [event])
  {
    Fits([], event);
    assert [] + [event] == [event];
    FilledNext(out, batch, [event], BatchFits);
    FlattenOne(out, batch);
  }

  lemma FewestBatches(batches: seq<seq<Event>>, events: seq<Event>)
    requires Flatten(batches) == events && Filled(batches, BatchFits)
    ensures forall other :: Flatten(other) == events && AllWithin(other, BatchFits) ==> |batches| <= |other|
  {
    BatchFitsHereditary();
    forall other | Flatten(other) == events && AllWithin(other, BatchFits) ensures |batches| <= |other| {
      FewestPieces(batches, other, BatchFits);
    }
  }

  /** The test the loop makes is the one that decides whether the event still fits. */
  lemma Fits(batch: seq<Event>, event: Event)
    requires BatchFits(batch) && LineFits(event.message)
    ensures BatchFits(batch + [event]) <==>
              || batch == []
              || (event.day == batch[0].day && |batch| < BATCH_EVENTS &&
                  Bytes(batch) + Size(event.message) <= BATCH_BYTES)
  {
    BytesConcat(batch, [event]);
    SameDayExtend(batch, event);
  }

  lemma SameDayExtend(batch: seq<Event>, event: Event)
    requires SameDay(batch)
    ensures SameDay(batch + [event]) <==> batch == [] || event.day == batch[0].day
  {
    var b := batch + [event];
    assert b[|batch|] == event && forall i :: 0 <= i < |batch| ==> b[i] == batch[i];
  }
}
