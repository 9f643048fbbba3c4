/** The video spool and its uploader: a quota-bounded queue of fragments from which only a
    contiguous prefix that the service reported persisted is ever removed. */
module Spool {
  import opened Common
  import Media

  datatype Fragment = Fragment(start: nat, end: nat, digest: string, media: seq<byte>)

  datatype Limits = Limits(maxSpoolBytes: nat, maxFragments: nat, maxFragmentBytes: nat)

  /** One PutMedia session: what it set out to send, and how far it got. */
  datatype Upload = Upload(pending: seq<nat>, next: nat, sent: set<nat>, acked: set<nat>, retireIndex: nat,
      ackCount: nat)

  /** The tables, and the session in progress; a crash loses only the session. */
  datatype State = State(
    fragments: seq<Fragment>,  // in order of `start`, the primary key
    lastEnd: nat, lastStart: nat, lastHash: string,
    failure: bool,
    upload: Option<Upload>)

  const EMPTY := State([], 0, 0, "", false, None)

  datatype Outcome = Queued | Duplicate | Overlap | Full | Invalid

  // --- Queueing ------------------------------------------------------------------------------

  function Charged(fragments: seq<Fragment>): nat {
    if fragments == [] then 0 else |fragments[0].media| + 256 + Charged(fragments[1..])
  }

  /** A row in its place by primary key. */
  function Insert(fragments: seq<Fragment>, f: Fragment): seq<Fragment> {
    if fragments == [] || f.start < fragments[0].start then [f] + fragments
    else [fragments[0]] + Insert(fragments[1..], f)
  }

  predicate IsDuplicate(s: State, f: Fragment) {
    || (exists i :: 0 <= i < |s.fragments| && s.fragments[i].start == f.start && s.fragments[i].digest == f.digest)
    || (f.start == s.lastStart && f.digest == s.lastHash)
  }

  function Verdict(s: State, f: Fragment, limits: Limits): Outcome {
    if IsDuplicate(s, f) then Duplicate
    else if f.start <= s.lastEnd || (s.lastStart != 0 && f.start - s.lastStart < 200) then Overlap
    else if Charged(s.fragments) + |f.media| + 256 > limits.maxSpoolBytes then Full
    else if |s.fragments| >= limits.maxFragments then Full
    else Queued
  }

  function AfterEnqueue(s: State, f: Fragment, limits: Limits): State {
    if Verdict(s, f, limits) != Queued then s
    else s.(fragments := Insert(s.fragments, f), lastEnd := f.end, lastStart := f.start, lastHash := f.digest)
  }

  // --- Uploading -------------------------------------------------------------------------------

  function Starts(fragments: seq<Fragment>): (r: seq<nat>)
    ensures |r| == |fragments| && forall i :: 0 <= i < |r| ==> r[i] == fragments[i].start
  {
    seq(|fragments|, i requires 0 <= i < |fragments| => fragments[i].start)
  }

  /** A session takes the first thousand fragments, unless a rejection awaits an operator. */
  function AfterBegin(s: State): State {
    var first := if |s.fragments| <= 1000 then s.fragments else s.fragments[..1000];
    if s.upload.Some? || s.fragments == [] || s.failure then s
    else s.(upload := Some(Upload(Starts(first), 0, {}, {}, 0, 0)))
  }

  predicate Stored(fragments: seq<Fragment>, start: nat, hash: seq<byte> -> string) {
    exists i :: 0 <= i < |fragments| && fragments[i].start == start && hash(fragments[i].media) == fragments[i].digest
  }

  /** The sender marks the next fragment sent; one that is missing or damaged ends the session. */
  function AfterSend(s: State, hash: seq<byte> -> string): State {
    if s.upload.None? then s
    else
      var u := s.upload.value;
      if u.next >= |u.pending| then s
      else if !Stored(s.fragments, u.pending[u.next], hash) then s.(upload := None)
      else s.(upload := Some(u.(sent := u.sent + {u.pending[u.next]}, next := u.next + 1)))
  }

  datatype Ack = Idle | Progress(timecode: nat) | Persisted(timecode: nat, numbered: bool)
    | Error(timecode: nat, retryable: bool) | Malformed

  /** The pending fragments from `k` on that form a persisted prefix. */
  function Retired(pending: seq<nat>, acked: set<nat>, k: nat): (r: seq<nat>)
    decreases |pending| - k
  {
    if k < |pending| && pending[k] in acked then [pending[k]] + Retired(pending, acked, k + 1) else []
  }

  function Delete(fragments: seq<Fragment>, start: nat): seq<Fragment> {
    if fragments == [] then []
    else if fragments[0].start == start then Delete(fragments[1..], start)
    else [fragments[0]] + Delete(fragments[1..], start)
  }

  function DeleteAll(fragments: seq<Fragment>, starts: seq<nat>): seq<Fragment>
    decreases |starts|
  {
    if starts == [] then fragments else DeleteAll(Delete(fragments, starts[0]), starts[1..])
  }

  /** One line of the acknowledgement stream. Anything unexpected ends the session. */
  function AfterAck(s: State, ack: Ack): State {
    if s.upload.None? then s
    else
      var u := s.upload.value.(ackCount := s.upload.value.ackCount + 1);
      if ack.Malformed? || u.ackCount > |u.pending| * 8 + 100 then s.(upload := None)
      else if ack.Idle? then s.(upload := Some(u))
      else if ack.timecode !in u.sent then s.(upload := None)
      else if ack.Error? then s.(upload := None, failure := s.failure || !ack.retryable)
      else if ack.Progress? || ack.timecode in u.acked then s.(upload := Some(u))
      else if !ack.numbered then s.(upload := None)
      else
        var acked := u.acked + {ack.timecode};
        var r := Retired(u.pending, acked, u.retireIndex);
        s.(fragments := DeleteAll(s.fragments, r),
           upload := Some(u.(acked := acked, retireIndex := u.retireIndex + |r|)))
  }

  function AfterCrash(s: State): State { s.(upload := None) }

  /** What a session that ended returns: success is every pending fragment persisted. */
  predicate Complete(u: Upload) { |u.acked| == |u.pending| }

  // --- The spool object ----------------------------------------------------------------------------

  class VideoSpool {
    const limits: Limits
    const hash: seq<byte> -> string
    var fragments: seq<Fragment>
    var lastEnd: nat
    var lastStart: nat
    var lastHash: string
    var failure: bool
    var upload: Option<Upload>

    ghost function Now(): State
      reads this
    {
      State(fragments, lastEnd, lastStart, lastHash, failure, upload)
    }

    constructor (limits: Limits, hash: seq<byte> -> string)
      ensures Now() == EMPTY && this.limits == limits && this.hash == hash
    {
      this.limits, this.hash := limits, hash;
      fragments, lastEnd, lastStart, lastHash, failure, upload := [], 0, 0, "", false, None;
    }

    /** Encode and queue one fragment; None where the frames are not a fragment. */
    method Enqueue(frames: seq<Media.Frame>) returns (outcome: Outcome)
      requires 1024 <= limits.maxFragmentBytes <= 8 * 1024 * 1024
      modifies this
      ensures if Media.FragmentFits(frames, limits.maxFragmentBytes) && Media.Encodable(frames)
                 && |Media.ClusterBytes(frames)| <= limits.maxFragmentBytes then
                var f := Fragmented(frames, hash);
                outcome == Verdict(old(Now()), f, limits) && Now() == AfterEnqueue(old(Now()), f, limits)
                && GoodFragment(f, hash)
              else outcome == Invalid && Now() == old(Now())
    {
      var cluster := Media.Cluster(frames, limits.maxFragmentBytes);
      if cluster.None? { return Invalid; }
      var (start, end, media) := cluster.value;
      Media.FrameBounds(frames, |frames| - 1, limits.maxFragmentBytes);
      var f := Fragment(start, end, hash(media), media);
      outcome := Verdict(State(fragments, lastEnd, lastStart, lastHash, failure, upload), f, limits);
      if outcome == Queued {
        fragments, lastEnd, lastStart, lastHash := Insert(fragments, f), end, start, f.digest;
      }
    }

    method BeginUpload()
      modifies this
      ensures Now() == AfterBegin(old(Now()))
    {
      if upload.Some? || fragments == [] || failure { return; }
      var pending := if |fragments| <= 1000 then fragments else fragments[..1000];
      upload := Some(Upload(Starts(pending), 0, {}, {}, 0, 0));
    }

    method SendNext()
      modifies this
      ensures Now() == AfterSend(old(Now()), hash)
    {
      if upload.None? { return; }
      var u := upload.value;
      if u.next >= |u.pending| { return; }
      if !Stored(fragments, u.pending[u.next], hash) {
        upload := None;
        return;
      }
      upload := Some(u.(sent := u.sent + {u.pending[u.next]}, next := u.next + 1));
    }

    /** One line of the acknowledgement stream, with the loop that retires the persisted prefix. */
    method HandleAck(ack: Ack)
      modifies this
      ensures Now() == AfterAck(old(Now()), ack)
    {
      if upload.None? { return; }
      var u := upload.value.(ackCount := upload.value.ackCount + 1);
      upload := None;
      if ack.Malformed? || u.ackCount > |u.pending| * 8 + 100 { return; }
      if ack.Idle? { upload := Some(u); return; }
      if ack.timecode !in u.sent { return; }
      if ack.Error? {
        failure := failure || !ack.retryable;
        return;
      }
      if ack.Persisted? && ack.timecode !in u.acked {
        if !ack.numbered { return; }
        u := u.(acked := u.acked + {ack.timecode});
        ghost var r := Retired(u.pending, u.acked, u.retireIndex);
        ghost var goal := DeleteAll(fragments, r);
        var k := u.retireIndex;
        while k < |u.pending| && u.pending[k] in u.acked
          invariant k + |Retired(u.pending, u.acked, k)| == u.retireIndex + |r|
          invariant goal == DeleteAll(fragments, Retired(u.pending, u.acked, k))
          invariant Now() == old(Now()).(upload := None, fragments := fragments)
        {
          assert Retired(u.pending, u.acked, k)[1..] == Retired(u.pending, u.acked, k + 1);
          fragments := Delete(fragments, u.pending[k]);
          k := k + 1;
        }
        u := u.(retireIndex := k);
      }
      upload := Some(u);
    }
  }

  /** The row a fragment becomes. */
  function Fragmented(frames: seq<Media.Frame>, hash: seq<byte> -> string): Fragment
    requires Media.Encodable(frames) && frames[|frames| - 1].timestamp >= 0
  {
    var media := Media.ClusterBytes(frames);
    Fragment(frames[0].timestamp, frames[|frames| - 1].timestamp, hash(media), media)
  }

  // --- Runs ---------------------------------------------------------------------------------------------

  datatype Event = Enqueue(fragment: Fragment) | Begin | Send | AckLine(ack: Ack) | Crash

  /** The spool with everything ever queued, sent, and acknowledged as persisted by a line that a session accepted. */
  datatype World = World(state: State, history: seq<Fragment>, sentEver: set<nat>, persisted: set<nat>)

  const START := World(EMPTY, [], {}, {})

  function Sending(s: State): set<nat> { if s.upload.Some? then s.upload.value.sent else {} }

  /** What the session in progress has accepted as persisted; a refused line adds nothing. */
  function Honoured(s: State): set<nat> { if s.upload.Some? then s.upload.value.acked else {} }

  function Step(w: World, e: Event, limits: Limits, hash: seq<byte> -> string): World {
    match e
    case Enqueue(f) =>
      w.(state := AfterEnqueue(w.state, f, limits),
         history := if Verdict(w.state, f, limits) == Queued then w.history + [f] else w.history)
    case Begin => w.(state := AfterBegin(w.state))
    case Send => var s := AfterSend(w.state, hash); w.(state := s, sentEver := w.sentEver + Sending(s))
    case AckLine(ack) => var s := AfterAck(w.state, ack); w.(state := s, persisted := w.persisted + Honoured(s))
    case Crash => w.(state := AfterCrash(w.state))
  }

  ghost predicate GoodFragment(f: Fragment, hash: seq<byte> -> string) {
    1 <= f.start <= f.end && f.digest == hash(f.media)
  }

  /** Fragments follow each other without overlap, at least 200 ms apart. */
  ghost predicate Ordered(history: seq<Fragment>) {
    forall i, j :: 0 <= i < j < |history| ==>
        history[i].end < history[j].start && history[i].start + 200 <= history[j].start
  }

  ghost predicate Newest(s: State, history: seq<Fragment>) {
    if history == [] then s.lastEnd == 0 && s.lastStart == 0
    else
      var f := history[|history| - 1];
      s.lastEnd == f.end && s.lastStart == f.start && s.lastHash == f.digest
  }

  ghost predicate Delivered(w: World, start: nat) { start in w.sentEver && start in w.persisted }

  /** The tables: the spool is what is left of the history after `removed`, within quota, and
      what was removed had been sent and reported persisted. */
  ghost predicate Tables(w: World, removed: seq<Fragment>, limits: Limits, hash: seq<byte> -> string) {
    && w.history == removed + w.state.fragments
    && (forall f :: f in w.history ==> GoodFragment(f, hash))
    && Ordered(w.history) && Newest(w.state, w.history)
    && Charged(w.state.fragments) <= limits.maxSpoolBytes && |w.state.fragments| <= limits.maxFragments
    && (forall f :: f in removed ==> Delivered(w, f.start))
  }

  ghost predicate Increasing(starts: seq<nat>) {
    forall i, j :: 0 <= i < j < |starts| ==> starts[i] < starts[j]
  }

  /** These are the keys of the first rows. */
  ghost predicate Heads(starts: seq<nat>, fragments: seq<Fragment>) {
    |starts| <= |fragments| && forall i :: 0 <= i < |starts| ==> starts[i] == fragments[i].start
  }

  /** What was sent is listed before the sender's cursor; what was acknowledged was sent; what
      was retired is the longest acknowledged prefix. */
  ghost predicate Cursors(u: Upload) {
    && u.retireIndex <= |u.pending| && u.next <= |u.pending| && Increasing(u.pending)
    && (forall i :: 0 <= i < |u.pending| && u.pending[i] in u.sent ==> i < u.next)
    && (forall t :: t in u.sent ==> t in u.pending)
    && u.acked <= u.sent
    && (forall i :: 0 <= i < u.retireIndex ==> u.pending[i] in u.acked)
    && (u.retireIndex < |u.pending| ==> u.pending[u.retireIndex] !in u.acked)
  }

  /** The part of the session's list not yet retired is how the spool begins. */
  ghost predicate Session(w: World, u: Upload) {
    Cursors(u) && Heads(u.pending[u.retireIndex..], w.state.fragments) && u.sent <= w.sentEver && u.acked <= w.persisted
  }

  ghost predicate Valid(w: World, removed: seq<Fragment>, limits: Limits, hash: seq<byte> -> string) {
    Tables(w, removed, limits, hash) && (w.state.upload.Some? ==> Session(w, w.state.upload.value))
  }

  // --- Each event keeps the spool valid -------------------------------------------------------------------

  ghost predicate Sorted(fragments: seq<Fragment>) {
    forall i, j :: 0 <= i < j < |fragments| ==> fragments[i].start < fragments[j].start
  }

  lemma {:induction false} InsertLast(fragments: seq<Fragment>, f: Fragment)
    requires forall i :: 0 <= i < |fragments| ==> fragments[i].start <= f.start
    ensures Insert(fragments, f) == fragments + [f]
  {
    if fragments != [] {
      InsertLast(fragments[1..], f);
      assert fragments == [fragments[0]] + fragments[1..];
      Assoc([fragments[0]], fragments[1..], [f]);
    }
  }

  lemma {:induction false} ChargedAppend(fragments: seq<Fragment>, f: Fragment)
    ensures Charged(fragments + [f]) == Charged(fragments) + |f.media| + 256
  {
    if fragments != [] {
      Tail(fragments, [f]);
      ChargedAppend(fragments[1..], f);
    }
  }

  lemma {:induction false} ChargedDrop(fragments: seq<Fragment>, n: nat)
    requires n <= |fragments|
    ensures Charged(fragments[n..]) <= Charged(fragments)
  {
    if n > 0 {
      ChargedDrop(fragments[1..], n - 1);
      assert fragments[n..] == fragments[1..][n - 1..];
    } else {
      assert fragments[0..] == fragments;
    }
  }

  lemma {:induction false} DeleteMissing(fragments: seq<Fragment>, start: nat)
    requires forall i :: 0 <= i < |fragments| ==> fragments[i].start != start
    ensures Delete(fragments, start) == fragments
  {
    if fragments != [] { DeleteMissing(fragments[1..], start); }
  }

  /** Deleting the first rows by their keys leaves the rest. */
  lemma {:induction false} DeletePrefix(fragments: seq<Fragment>, starts: seq<nat>)
    requires Sorted(fragments) && |starts| <= |fragments|
    requires forall i :: 0 <= i < |starts| ==> starts[i] == fragments[i].start
    ensures DeleteAll(fragments, starts) == fragments[|starts|..]
    decreases |starts|
  {
    if starts != [] {
      var rest := fragments[1..];
      assert forall i :: 0 <= i < |rest| ==> rest[i] == fragments[i + 1];
      DeleteMissing(rest, starts[0]);
      DeletePrefix(rest, starts[1..]);
      assert rest[|starts| - 1..] == fragments[|starts|..];
    }
  }

  lemma SortedRest(removed: seq<Fragment>, fragments: seq<Fragment>)
    requires Ordered(removed + fragments)
    ensures Sorted(fragments)
  {
    var h := removed + fragments;
    assert forall i :: 0 <= i < |fragments| ==> fragments[i] == h[|removed| + i];
  }

  lemma EnqueueKeeps(w: World, v: World, f: Fragment, removed: seq<Fragment>, limits: Limits, hash: seq<byte> -> string)
    requires Valid(w, removed, limits, hash) && GoodFragment(f, hash) && Verdict(w.state, f, limits) == Queued
    requires v == w.(state := AfterEnqueue(w.state, f, limits), history := w.history + [f])
    ensures Valid(v, removed, limits, hash)
  {
    StartsBelow(w, f, removed, limits, hash);
    InsertLast(w.state.fragments, f);
    ChargedAppend(w.state.fragments, f);
    Assoc(removed, w.state.fragments, [f]);
    OrderedAppend(w.history, f);
  }

  lemma OrderedAppend(history: seq<Fragment>, f: Fragment)
    requires Ordered(history)
    requires forall i :: 0 <= i < |history| ==> history[i].end < f.start && history[i].start + 200 <= f.start
    ensures Ordered(history + [f])
  {}

  /** Whatever is queued comes after everything queued before. */
  lemma StartsBelow(w: World, f: Fragment, removed: seq<Fragment>, limits: Limits, hash: seq<byte> -> string)
    requires Tables(w, removed, limits, hash) && Verdict(w.state, f, limits) == Queued
    ensures forall i :: 0 <= i < |w.history| ==> w.history[i].end < f.start && w.history[i].start + 200 <= f.start
    ensures forall i :: 0 <= i < |w.state.fragments| ==> w.state.fragments[i].start <= f.start
  {
    var n := |w.history| - 1;
    if n >= 0 {
      assert GoodFragment(w.history[n], hash);
      forall i | 0 <= i <= n ensures w.history[i].end < f.start && w.history[i].start + 200 <= f.start {
        assert GoodFragment(w.history[i], hash);
      }
    }
    forall i | 0 <= i < |w.state.fragments| ensures w.state.fragments[i].start <= f.start {
      assert w.state.fragments[i] == w.history[|removed| + i];
    }
  }

  lemma BeginKeeps(w: World, v: World, removed: seq<Fragment>, limits: Limits, hash: seq<byte> -> string)
    requires Valid(w, removed, limits, hash) && v == w.(state := AfterBegin(w.state))
    ensures Valid(v, removed, limits, hash)
  {
    if v != w {
      SortedRest(removed, w.state.fragments);
      var u := v.state.upload.value;
      assert u.pending[0..] == u.pending;
    }
  }

  /** What is still to be sent is stored and undamaged: the sender never fails on its own. */
  lemma SendKeeps(w: World, v: World, removed: seq<Fragment>, limits: Limits, hash: seq<byte> -> string)
    requires Valid(w, removed, limits, hash)
    requires v == w.(state := AfterSend(w.state, hash), sentEver := w.sentEver + Sending(AfterSend(w.state, hash)))
    ensures Valid(v, removed, limits, hash)
    ensures w.state.upload.Some? && w.state.upload.value.next < |w.state.upload.value.pending| ==>
              v.state.upload.Some? && v.state.upload.value.next == w.state.upload.value.next + 1
  {
    if w.state.upload.Some? {
      var u := w.state.upload.value;
      if u.next < |u.pending| {
        NextIsStored(w, u, removed, limits, hash);
        SendCursors(u);
      }
    }
  }

  lemma SendCursors(u: Upload)
    requires Cursors(u) && u.next < |u.pending|
    ensures Cursors(u.(sent := u.sent + {u.pending[u.next]}, next := u.next + 1))
  {}

  lemma NextIsStored(w: World, u: Upload, removed: seq<Fragment>, limits: Limits, hash: seq<byte> -> string)
    requires Tables(w, removed, limits, hash) && Session(w, u) && u.next < |u.pending|
    ensures Stored(w.state.fragments, u.pending[u.next], hash)
  {
    RetiredWereSent(u);
    var i := u.next - u.retireIndex;
    assert u.pending[u.retireIndex..][i] == u.pending[u.next];
    var f := w.state.fragments[i];
    assert f in w.history && GoodFragment(f, hash);
  }

  lemma RetiredWereSent(u: Upload)
    requires Cursors(u)
    ensures u.retireIndex <= u.next
  {
    if u.retireIndex > 0 { assert u.pending[u.retireIndex - 1] in u.sent; }
  }

  /** The acknowledged prefix, as a list and by position. */
  lemma {:induction false} RetiredSlice(pending: seq<nat>, acked: set<nat>, k: nat)
    requires k <= |pending|
    ensures var r := Retired(pending, acked, k);
            && k + |r| <= |pending| && r == pending[k..k + |r|]
            && (forall i :: k <= i < k + |r| ==> pending[i] in acked)
            && (k + |r| < |pending| ==> pending[k + |r|] !in acked)
    decreases |pending| - k
  {
    if k < |pending| && pending[k] in acked {
      RetiredSlice(pending, acked, k + 1);
      var t := Retired(pending, acked, k + 1);
      assert pending[k..k + 1 + |t|] == [pending[k]] + pending[k + 1..k + 1 + |t|];
    }
  }

  /** Dropping the fragments between the old and the new cursor, all persisted. */
  lemma Retire(w: World, v: World, u: Upload, x: Upload, starts: seq<nat>, removed: seq<Fragment>, limits: Limits,
               hash: seq<byte> -> string)
    returns (removed': seq<Fragment>)
    requires Tables(w, removed, limits, hash) && Session(w, u)
    requires x.pending == u.pending && x.retireIndex == u.retireIndex + |starts| && Cursors(x) && x.sent == u.sent
    requires x.acked <= v.persisted
    requires starts == u.pending[u.retireIndex..x.retireIndex] && w.persisted <= v.persisted
    requires v == w.(state := w.state.(upload := Some(x), fragments := DeleteAll(w.state.fragments, starts)),
              persisted := v.persisted)
    ensures Valid(v, removed', limits, hash)
  {
    var rows, n := w.state.fragments, |starts|;
    SortedRest(removed, rows);
    HeadsAt(rows, u.pending, u.retireIndex, n);
    Deleted(rows, starts);
    DeliveredPrefix(v, x, u.retireIndex, rows[..n], starts);
    removed' := removed + rows[..n];
    RetireTables(w, v, rows[..n], removed, limits, hash);
  }

  lemma HeadsAt(rows: seq<Fragment>, pending: seq<nat>, at: nat, n: nat)
    requires at + n <= |pending| && Heads(pending[at..], rows)
    ensures n <= |rows| && Heads(pending[at..at + n], rows[..n]) && Heads(pending[at + n..], rows[n..])
  {
    SuffixSlice(pending, at, n);
    HeadsSplit(pending[at..], rows, n);
  }

  lemma Deleted(rows: seq<Fragment>, starts: seq<nat>)
    requires Sorted(rows) && |starts| <= |rows| && Heads(starts, rows[..|starts|])
    ensures DeleteAll(rows, starts) == rows[|starts|..] && Charged(rows[|starts|..]) <= Charged(rows)
    ensures rows == rows[..|starts|] + rows[|starts|..]
  {
    assert forall i :: 0 <= i < |starts| ==> rows[..|starts|][i] == rows[i];
    DeletePrefix(rows, starts);
    ChargedDrop(rows, |starts|);
  }

  lemma SuffixSlice(s: seq<nat>, at: nat, n: nat)
    requires at + n <= |s|
    ensures s[at..at + n] == s[at..][..n] && s[at + n..] == s[at..][n..]
  {}

  lemma HeadsSplit(starts: seq<nat>, rows: seq<Fragment>, n: nat)
    requires Heads(starts, rows) && n <= |starts|
    ensures Heads(starts[..n], rows[..n]) && Heads(starts[n..], rows[n..])
  {}

  lemma RetireTables(w: World, v: World, gone: seq<Fragment>, removed: seq<Fragment>, limits: Limits,
                     hash: seq<byte> -> string)
    requires Tables(w, removed, limits, hash) && w.state.fragments == gone + v.state.fragments
    requires v.history == w.history && v.sentEver == w.sentEver && w.persisted <= v.persisted
    requires Newest(v.state, v.history)
    requires Charged(v.state.fragments) <= Charged(w.state.fragments)
    requires forall f :: f in gone ==> Delivered(v, f.start)
    ensures Tables(v, removed + gone, limits, hash)
  {
    Assoc(removed, gone, v.state.fragments);
    forall f | f in removed + gone ensures Delivered(v, f.start) {
      if f in removed { assert Delivered(w, f.start); }
    }
  }

  lemma DeliveredPrefix(v: World, x: Upload, from: nat, gone: seq<Fragment>, starts: seq<nat>)
    requires Cursors(x) && from <= x.retireIndex && starts == x.pending[from..x.retireIndex] && Heads(starts, gone)
    requires |starts| == |gone|
    requires x.sent <= v.sentEver && x.acked <= v.persisted
    ensures forall f :: f in gone ==> Delivered(v, f.start)
  {
    forall f | f in gone ensures Delivered(v, f.start) {
      var i :| 0 <= i < |gone| && gone[i] == f;
      assert starts[i] == f.start && x.pending[from + i] == f.start;
    }
  }

  lemma AckKeeps(w: World, v: World, ack: Ack, removed: seq<Fragment>, limits: Limits, hash: seq<byte> -> string)
    returns (removed': seq<Fragment>)
    requires Valid(w, removed, limits, hash)
    requires v == w.(state := AfterAck(w.state, ack), persisted := w.persisted + Honoured(AfterAck(w.state, ack)))
    ensures Valid(v, removed', limits, hash)
  {
    removed' := removed;
    if w.state.upload.Some? {
      var u := w.state.upload.value;
      AckCases(w.state, ack, u);
      if v.state.fragments == w.state.fragments && (v.state.upload.None? || v.state.upload.value.acked == u.acked) {
        Unretired(w, v, u, removed, limits, hash);
      } else {
        var x := v.state.upload.value;
        AckCursors(u, x, ack.timecode);
        removed' := Retire(w, v, u, x, Retired(u.pending, x.acked, u.retireIndex), removed, limits, hash);
      }
    }
  }

  /** An acknowledgement ends the session, changes only its count, or persists one sent fragment. */
  lemma AckCases(s: State, ack: Ack, u: Upload)
    requires s.upload == Some(u)
    ensures var v, n := AfterAck(s, ack), u.ackCount + 1;
            || v == s.(upload := None, failure := v.failure)
            || v == s.(upload := Some(u.(ackCount := n)))
            || (&& ack.Persisted? && ack.timecode in u.sent && ack.timecode !in u.acked
                && var r := Retired(u.pending, u.acked + {ack.timecode}, u.retireIndex);
                   v == s.(fragments := DeleteAll(s.fragments, r),
                           upload := Some(u.(ackCount := n, acked := u.acked + {ack.timecode},
                               retireIndex := u.retireIndex + |r|))))
  {}

  lemma Unretired(w: World, v: World, u: Upload, removed: seq<Fragment>, limits: Limits, hash: seq<byte> -> string)
    requires Tables(w, removed, limits, hash) && Session(w, u)
    requires v.history == w.history && v.sentEver == w.sentEver && w.persisted <= v.persisted
    requires v.state == w.state.(upload := v.state.upload, failure := v.state.failure)
    requires v.state.upload.None? || v.state.upload == Some(u.(ackCount := v.state.upload.value.ackCount))
    ensures Valid(v, removed, limits, hash)
  {
    forall f | f in removed ensures Delivered(v, f.start) { assert Delivered(w, f.start); }
  }

  lemma AckCursors(u: Upload, x: Upload, t: nat)
    requires Cursors(u) && t in u.sent
    requires x == u.(acked := u.acked + {t}, retireIndex := u.retireIndex + |Retired(u.pending, u.acked + {t},
              u.retireIndex)|, ackCount := x.ackCount)
    ensures Cursors(x) && Retired(u.pending, x.acked, u.retireIndex) == u.pending[u.retireIndex..x.retireIndex]
  {
    RetiredSlice(u.pending, x.acked, u.retireIndex);
  }

  /** No step of any interleaving of producers, one uploader and crashes breaks the spool. */
  lemma StepKeeps(w: World, e: Event, removed: seq<Fragment>, limits: Limits, hash: seq<byte> -> string)
    returns (removed': seq<Fragment>)
    requires Valid(w, removed, limits, hash) && (e.Enqueue? ==> GoodFragment(e.fragment, hash))
    ensures Valid(Step(w, e, limits, hash), removed', limits, hash)
  {
    var v := Step(w, e, limits, hash);
    removed' := removed;
    match e
    case Enqueue(f) =>
      if Verdict(w.state, f, limits) == Queued { EnqueueKeeps(w, v, f, removed, limits, hash); }
    case Begin => BeginKeeps(w, v, removed, limits, hash);
    case Send => SendKeeps(w, v, removed, limits, hash);
    case AckLine(ack) => removed' := AckKeeps(w, v, ack, removed, limits, hash);
    case Crash =>
  }

  // --- What holds after every run -------------------------------------------------------------------------

  ghost predicate GoodEvents(events: seq<Event>, hash: seq<byte> -> string) {
    forall i :: 0 <= i < |events| && events[i].Enqueue? ==> GoodFragment(events[i].fragment, hash)
  }

  function Run(w: World, events: seq<Event>, limits: Limits, hash: seq<byte> -> string): World
    decreases |events|
  {
    if events == [] then w else Run(Step(w, events[0], limits, hash), events[1..], limits, hash)
  }

  lemma {:induction false} RunKeeps(w: World, removed: seq<Fragment>, events: seq<Event>, limits: Limits,
                                    hash: seq<byte> -> string)
    returns (removed': seq<Fragment>)
    requires Valid(w, removed, limits, hash) && GoodEvents(events, hash)
    ensures Valid(Run(w, events, limits, hash), removed', limits, hash)
    decreases |events|
  {
    if events == [] {
      removed' := removed;
    } else {
      removed' := StepKeeps(w, events[0], removed, limits, hash);
      removed' := RunKeeps(Step(w, events[0], limits, hash), removed', events[1..], limits, hash);
    }
  }

  lemma StartIsValid(limits: Limits, hash: seq<byte> -> string)
    ensures Valid(START, [], limits, hash)
  {}

  lemma AfterRun(w: World, events: seq<Event>, limits: Limits, hash: seq<byte> -> string)
    returns (removed: seq<Fragment>)
    requires GoodEvents(events, hash) && w == Run(START, events, limits, hash)
    ensures Tables(w, removed, limits, hash)
  {
    StartIsValid(limits, hash);
    removed := RunKeeps(START, [], events, limits, hash);
  }

  lemma SafeTables(w: World, removed: seq<Fragment>, limits: Limits, hash: seq<byte> -> string)
    requires Tables(w, removed, limits, hash)
    ensures forall f :: f in removed ==> f.start in w.sentEver && f.start in w.persisted
    ensures forall i, j :: 0 <= i < j < |w.history| ==> w.history[i].end < w.history[j].start
  {
    assert forall f :: f in removed ==> Delivered(w, f.start);
  }

  /** After any run of enqueues, sessions and crashes: the spool is a contiguous suffix of
      everything ever queued, what is gone was sent and reported persisted, the quotas hold and
      no two fragments ever queued overlap. */
  lemma SpoolSafety(w: World, events: seq<Event>, limits: Limits, hash: seq<byte> -> string)
    returns (removed: seq<Fragment>)
    requires GoodEvents(events, hash) && w == Run(START, events, limits, hash)
    ensures w.history == removed + w.state.fragments
    ensures forall f :: f in removed ==> f.start in w.sentEver && f.start in w.persisted
    ensures Charged(w.state.fragments) <= limits.maxSpoolBytes && |w.state.fragments| <= limits.maxFragments
    ensures forall i, j :: 0 <= i < j < |w.history| ==> w.history[i].end < w.history[j].start
  {
    removed := AfterRun(w, events, limits, hash);
    SafeTables(w, removed, limits, hash);
  }

  /** A fragment that starts no later than the end of anything ever queued is never queued again:
      it is reported a duplicate or refused, and nothing changes. */
  lemma ReplayIsHarmless(w: World, events: seq<Event>, f: Fragment, g: Fragment, limits: Limits,
                         hash: seq<byte> -> string)
    requires GoodEvents(events, hash) && w == Run(START, events, limits, hash)
    requires g in w.history && f.start <= g.end
    ensures Verdict(w.state, f, limits) == Duplicate || Verdict(w.state, f, limits) == Overlap
    ensures AfterEnqueue(w.state, f, limits) == w.state
  {
    var removed := AfterRun(w, events, limits, hash);
    NewestEndsLast(w, g, removed, limits, hash);
  }

  lemma NewestEndsLast(w: World, g: Fragment, removed: seq<Fragment>, limits: Limits, hash: seq<byte> -> string)
    requires Tables(w, removed, limits, hash) && g in w.history
    ensures g.end <= w.state.lastEnd
  {
    var i, n :| 0 <= i < |w.history| && w.history[i] == g && n == |w.history| - 1;
    assert GoodFragment(w.history[n], hash);
  }

  /** A session that counted as many persisted fragments as it listed has retired them all. */
  lemma CompleteRetiresAll(u: Upload)
    requires Cursors(u) && Complete(u)
    ensures u.retireIndex == |u.pending|
  {
    Covers(u.pending, u.acked);
  }

  lemma Covers(starts: seq<nat>, some: set<nat>)
    requires |some| == |starts| && forall t :: t in some ==> t in starts
    ensures forall i :: 0 <= i < |starts| ==> starts[i] in some
  {
    SeqSetSize(starts);
    Subset(some, Elements(starts));
  }

  function Elements(starts: seq<nat>): set<nat> { set t | t in starts }

  lemma {:induction false} SeqSetSize(starts: seq<nat>)
    ensures |Elements(starts)| <= |starts|
  {
    if starts != [] {
      SeqSetSize(starts[1..]);
      assert Elements(starts) == {starts[0]} + Elements(starts[1..]);
    }
  }

  lemma Subset(a: set<nat>, b: set<nat>)
    requires a <= b && |b| <= |a|
    ensures a == b
  {
    if t :| t in b && t !in a {
      SubsetSize(a, b - {t});
    }
  }
}
