/** H.264 fragments: access units as length-prefixed NAL units (AVCC), fragments as Matroska clusters. */
module Media {
  import opened Common
  import opened Bytes
  import opened Ebml

  // --- AVCC: length-prefixed NAL units -------------------------------------------------------

  /** A NAL unit the walk accepts: not empty, representable, forbidden bit clear. */
  predicate GoodNal(n: seq<byte>) { 1 <= |n| < 0x1_0000_0000 && n[0] < 128 }

  function Prefixed(n: seq<byte>): seq<byte> { ToBytes(|n|, 4) + n }

  /** What the source writes for one access unit. */
  function Join(nals: seq<seq<byte>>): seq<byte> { ConcatMap(Prefixed, nals) }

  function Kind(n: seq<byte>): nat
    requires n != []
  {
    n[0] % 32
  }

  /** The units an access unit is made of; None where the source raises. */
  function Units(data: seq<byte>): (r: Option<seq<seq<byte>>>)
    ensures r.Some? ==> forall i :: 0 <= i < |r.value| ==> GoodNal(r.value[i])
    decreases |data|
  {
    if data == [] then Some([])
    else if |data| < 4 then None
    else
      var size, rest := FromBytes(data[..4]), data[4..];
      if !(1 <= size <= |rest|) || rest[0] >= 128 then None
      else
        ToFrom(data[..4]);
        assert Pow256(4) == 0x1_0000_0000;
        match Units(rest[size..])
        case None => None
        case Some(more) => Some([rest[..size]] + more)
  }

  lemma {:induction false} UnitsOfJoin(nals: seq<seq<byte>>)
    requires forall i :: 0 <= i < |nals| ==> GoodNal(nals[i])
    ensures Units(Join(nals)) == Some(nals)
  {
    if nals != [] {
      var n, more := nals[0], Join(nals[1..]);
      UnitsOfJoin(nals[1..]);
      FirstUnit(n, more);
      assert nals == [n] + nals[1..];
    }
  }

  lemma FirstUnit(n: seq<byte>, more: seq<byte>)
    requires GoodNal(n)
    ensures var data := Prefixed(n) + more;
            |data| > 4 && FromBytes(data[..4]) == |n| && data[4..][..|n|] == n && data[4..][|n|..] == more &&
                data[4..][0] == n[0]
  {
    var data := Prefixed(n) + more;
    assert Pow256(4) == 0x1_0000_0000;
    FromTo(|n|, 4);
    assert data[..4] == ToBytes(|n|, 4) && data[4..] == n + more;
    assert (n + more)[..|n|] == n && (n + more)[|n|..] == more;
  }

  lemma {:induction false} JoinOfUnits(data: seq<byte>)
    requires Units(data).Some?
    ensures Join(Units(data).value) == data
    decreases |data|
  {
    if data != [] {
      var size, rest := FromBytes(data[..4]), data[4..];
      var n, more := rest[..size], rest[size..];
      JoinOfUnits(more);
      PrefixedFirst(data);
      assert ([n] + Units(more).value)[1..] == Units(more).value;
    }
  }

  lemma PrefixedFirst(data: seq<byte>)
    requires |data| >= 4 && FromBytes(data[..4]) <= |data[4..]|
    ensures var size, rest := FromBytes(data[..4]), data[4..]; data == Prefixed(rest[..size]) + rest[size..]
  {
    var size, rest := FromBytes(data[..4]), data[4..];
    ToFrom(data[..4]);
    assert data == data[..4] + (rest[..size] + rest[size..]);
    Assoc(data[..4], rest[..size], rest[size..]);
  }

  /** The walk accepts exactly the concatenations of length-prefixed units, and finds those units. */
  lemma WalkIsExact(data: seq<byte>, nals: seq<seq<byte>>)
    ensures Units(data) == Some(nals) <==> data == Join(nals) && forall i :: 0 <= i < |nals| ==> GoodNal(nals[i])
  {
    if Units(data) == Some(nals) { JoinOfUnits(data); }
    if data == Join(nals) && forall i :: 0 <= i < |nals| ==> GoodNal(nals[i]) { UnitsOfJoin(nals); }
  }

  function Kinds(nals: seq<seq<byte>>): (k: seq<nat>)
    requires forall i :: 0 <= i < |nals| ==> nals[i] != []
    ensures |k| == |nals| && forall i :: 0 <= i < |nals| ==> k[i] == Kind(nals[i])
  {
    seq(|nals|, i requires 0 <= i < |nals| => Kind(nals[i]))
  }

  /** The walk itself: the types of the NAL units. */
  method Walk(data: seq<byte>) returns (types: Option<seq<nat>>)
    ensures types.None? <==> Units(data).None?
    ensures types.Some? ==> types.value == Kinds(Units(data).value)
  {
    var rest, found: seq<nat> := data, [];
    ghost var done: seq<seq<byte>> := [];
    assert Units(data).Some? ==> Units(data).value == [] + Units(data).value;
    while rest != []
      invariant forall i :: 0 <= i < |done| ==> GoodNal(done[i])
      invariant found == Kinds(done)
      invariant Units(data).None? <==> Units(rest).None?
      invariant Units(data).Some? ==> Units(data).value == done + Units(rest).value
      decreases |rest|
    {
      if |rest| < 4 { return None; }
      var size := FromBytes(rest[..4]);
      ghost var before := rest;
      rest := rest[4..];
      if !(1 <= size <= |rest|) || rest[0] >= 128 { return None; }
      WalkStep(before, done);
      found := found + [rest[0] % 32];
      done := done + [rest[..size]];
      rest := rest[size..];
    }
    return Some(found);
  }

  lemma WalkStep(data: seq<byte>, done: seq<seq<byte>>)
    requires |data| >= 4 && 1 <= FromBytes(data[..4]) <= |data[4..]| && data[4..][0] < 128
    ensures var size, rest := FromBytes(data[..4]), data[4..];
            && GoodNal(rest[..size])
            && (Units(data).None? <==> Units(rest[size..]).None?)
            && (Units(data).Some? ==> done + Units(data).value == done + [rest[..size]] + Units(rest[size..]).value)
  {
    ToFrom(data[..4]);
    assert Pow256(4) == 0x1_0000_0000;
    var size, rest := FromBytes(data[..4]), data[4..];
    if Units(data).Some? { Assoc(done, [rest[..size]], Units(rest[size..]).value); }
  }

  // --- Fragments ---------------------------------------------------------------------------------

  datatype Frame = Frame(timestamp: int, key: bool, data: seq<byte>)

  const MAX_TIME := 0x1F_FFFF_FFFF_FFFF  // 2^53 - 1

  /** What the NAL types of an access unit must be: slices, SEI or delimiters, at least one slice,
      and an IDR slice exactly in a key frame. */
  predicate UnitFits(types: seq<nat>, key: bool) {
    && (forall i :: 0 <= i < |types| ==> types[i] in {1, 5, 6, 9})
    && (1 in types || 5 in types)
    && (key <==> 5 in types)
  }

  predicate FrameFits(f: Frame) {
    Units(f.data).Some? && UnitFits(Kinds(Units(f.data).value), f.key)
  }

  function DataBytes(frames: seq<Frame>): nat {
    if frames == [] then 0 else |frames[0].data| + DataBytes(frames[1..])
  }

  /** What the frame at `i` must satisfy beside the ones before it. */
  predicate FrameAt(frames: seq<Frame>, i: nat)
    requires i < |frames|
  {
    && frames[i].timestamp <= frames[0].timestamp + 10000 && frames[i].timestamp <= MAX_TIME
    && (if i == 0 then frames[0].key else frames[i - 1].timestamp < frames[i].timestamp)
    && FrameFits(frames[i])
  }

  /** Everything a fragment must satisfy besides the size of its encoding: up to 1000 access
      units within ten seconds, strictly ordered, a key frame first. */
  predicate FragmentFits(frames: seq<Frame>, maxBytes: nat) {
    && 1 <= |frames| <= 1000
    && 1 <= frames[0].timestamp <= MAX_TIME
    && DataBytes(frames) <= maxBytes - 256
    && forall i :: 0 <= i < |frames| ==> FrameAt(frames, i)
  }

  // --- The Matroska cluster --------------------------------------------------------------------------

  const CLUSTER: seq<byte> := [0x1F, 0x43, 0xB6, 0x75]
  const TIMECODE: seq<byte> := [0xE7]
  const SIMPLE_BLOCK: seq<byte> := [0xA3]

  predicate BlockFits(start: int, f: Frame) {
    0 <= f.timestamp - start <= 10000 && |f.data| < 0x100_0000
  }

  predicate BlocksFit(start: int, frames: seq<Frame>) {
    forall i :: 0 <= i < |frames| ==> BlockFits(start, frames[i])
  }

  /** Track 1, the time since the cluster's, the key frame flag, the access unit. */
  function BlockData(start: int, f: Frame): seq<byte>
    requires BlockFits(start, f)
  {
    [0x81] + (ToBytes(f.timestamp - start, 2) + ([if f.key then 128 else 0] + f.data))
  }

  function Block(start: int, f: Frame): (b: seq<byte>)
    requires BlockFits(start, f)
    ensures Elem(SIMPLE_BLOCK, BlockData(start, f)) == Some(b) && |b| <= 13 + |f.data|
  {
    SmallElem(SIMPLE_BLOCK, BlockData(start, f));
    Elem(SIMPLE_BLOCK, BlockData(start, f)).value
  }

  function Blocks(start: int, frames: seq<Frame>): (b: seq<byte>)
    requires BlocksFit(start, frames)
    ensures |b| <= 13 * |frames| + DataBytes(frames)
  {
    if frames == [] then [] else Block(start, frames[0]) + Blocks(start, frames[1..])
  }

  function Timecode(start: nat): (b: seq<byte>)
    requires start <= MAX_TIME
    ensures Elem(TIMECODE, UintBytes(start)) == Some(b) && |b| <= 17
  {
    ShortUint(start);
    SmallElem(TIMECODE, UintBytes(start));
    Elem(TIMECODE, UintBytes(start)).value
  }

  lemma ShortUint(n: nat)
    requires n <= MAX_TIME
    ensures |UintBytes(n)| <= 8
  {
    assert Pow256(8) == 0x1_0000_0000_0000_0000;
    UintIsShortest(n, 8);
  }

  predicate Encodable(frames: seq<Frame>) {
    && 1 <= |frames| <= 1000 && 1 <= frames[0].timestamp <= MAX_TIME
    && DataBytes(frames) < 0x100_0000 && BlocksFit(frames[0].timestamp, frames)
  }

  function ClusterBody(frames: seq<Frame>): seq<byte>
    requires Encodable(frames)
  {
    Timecode(frames[0].timestamp) + Blocks(frames[0].timestamp, frames)
  }

  function ClusterBytes(frames: seq<Frame>): (b: seq<byte>)
    requires Encodable(frames)
    ensures Elem(CLUSTER, ClusterBody(frames)) == Some(b)
  {
    SmallElem(CLUSTER, ClusterBody(frames));
    Elem(CLUSTER, ClusterBody(frames)).value
  }

  // --- Reading a cluster back ---------------------------------------------------------------------------

  function ReadBlock(start: int, data: seq<byte>): Option<Frame> {
    if |data| < 4 || data[0] != 0x81 then None
    else
      var timed := data[1..];
      var t, flagged := FromBytes(timed[..2]), timed[2..];
      Some(Frame(start + if t < 0x8000 then t else t - 0x1_0000, flagged[0] >= 128, flagged[1..]))
  }

  function ReadBlocks(start: int, b: seq<byte>): Option<seq<Frame>>
    decreases |b|
  {
    if b == [] then Some([])
    else
      match ReadElem(SIMPLE_BLOCK, b)
      case None => None
      case Some(e) =>
        var f, more := ReadBlock(start, e.value), ReadBlocks(start, e.rest);
        if f == None || more == None then None else Some([f.value] + more.value)
  }

  function ReadCluster(b: seq<byte>): Option<seq<Frame>> {
    match ReadElem(CLUSTER, b)
    case None => None
    case Some(c) =>
      if c.rest != [] then None
      else
        match ReadElem(TIMECODE, c.value)
        case None => None
        case Some(t) => ReadBlocks(FromBytes(t.value), t.rest)
  }

  lemma BlockRoundTrip(start: int, f: Frame)
    requires BlockFits(start, f)
    ensures ReadBlock(start, BlockData(start, f)) == Some(f)
  {
    var t, flag: seq<byte> := f.timestamp - start, [if f.key then 128 else 0];
    assert Pow256(2) == 65536;
    FromTo(t, 2);
    Cut([0x81], ToBytes(t, 2) + (flag + f.data));
    Cut(ToBytes(t, 2), flag + f.data);
    Cut(flag, f.data);
  }

  lemma {:induction false} BlocksRoundTrip(start: int, frames: seq<Frame>, b: seq<byte>)
    requires BlocksFit(start, frames) && b == Blocks(start, frames)
    ensures ReadBlocks(start, b) == Some(frames)
  {
    if frames != [] {
      var f, rest := frames[0], frames[1..];
      BlocksCons(start, frames);
      var more := Blocks(start, rest);
      BlocksRoundTrip(start, rest, more);
      ReadBlocksFirst(start, f, more, rest);
      assert frames == [f] + rest;
    }
  }

  lemma ReadBlocksFirst(start: int, f: Frame, more: seq<byte>, rest: seq<Frame>)
    requires BlockFits(start, f) && ReadBlocks(start, more) == Some(rest)
    ensures ReadBlocks(start, Block(start, f) + more) == Some([f] + rest)
  {
    var data := BlockData(start, f);
    BlockRoundTrip(start, f);
    ElemRoundTrip(SIMPLE_BLOCK, data, more);
    ReadBlocksCons(start, Block(start, f) + more, f, data, more, rest);
  }

  lemma ReadBlocksCons(start: int, b: seq<byte>, f: Frame, data: seq<byte>, more: seq<byte>, rest: seq<Frame>)
    requires b != [] && ReadElem(SIMPLE_BLOCK, b) == Some(Read(data, more))
    requires ReadBlock(start, data) == Some(f) && ReadBlocks(start, more) == Some(rest)
    ensures ReadBlocks(start, b) == Some([f] + rest)
  {}

  lemma BlocksCons(start: int, frames: seq<Frame>)
    requires BlocksFit(start, frames) && frames != []
    ensures BlocksFit(start, frames[1..]) && BlockFits(start, frames[0])
    ensures Blocks(start, frames) == Block(start, frames[0]) + Blocks(start, frames[1..])
  {}

  /** A written cluster reads back as exactly the frames it was made from. */
  lemma ClusterRoundTrip(frames: seq<Frame>)
    requires Encodable(frames)
    ensures ReadCluster(ClusterBytes(frames)) == Some(frames)
  {
    var start := frames[0].timestamp;
    ElemRoundTrip(CLUSTER, ClusterBody(frames), []);
    assert ClusterBytes(frames) + [] == ClusterBytes(frames);
    ElemRoundTrip(TIMECODE, UintBytes(start), Blocks(start, frames));
    FromUint(start);
    BlocksRoundTrip(start, frames, Blocks(start, frames));
  }

  // --- The writer ------------------------------------------------------------------------------------------

  lemma {:induction false} DataBytesSplit(frames: seq<Frame>, k: nat)
    requires k <= |frames|
    ensures DataBytes(frames) == DataBytes(frames[..k]) + DataBytes(frames[k..])
  {
    if k > 0 {
      DataBytesSplit(frames[1..], k - 1);
      assert frames[..k][1..] == frames[1..][..k - 1] && frames[k..] == frames[1..][k - 1..];
    } else {
      assert frames[0..] == frames;
    }
  }

  lemma DataBytesNext(frames: seq<Frame>, k: nat)
    requires k < |frames|
    ensures DataBytes(frames[..k + 1]) == DataBytes(frames[..k]) + |frames[k].data| <= DataBytes(frames)
  {
    DataBytesSplit(frames, k + 1);
    var p := frames[..k + 1];
    DataBytesSplit(p, k);
    assert p[..k] == frames[..k] && p[k..] == [frames[k]];
    assert DataBytes([frames[k]]) == |frames[k].data|;
  }

  lemma {:induction false} BlocksNext(start: int, frames: seq<Frame>, f: Frame)
    requires BlocksFit(start, frames) && BlockFits(start, f)
    ensures BlocksFit(start, frames + [f]) && Blocks(start, frames + [f]) == Blocks(start, frames) + Block(start, f)
  {
    if frames == [] {
      assert [] + [f] == [f] && [f][1..] == [];
    } else {
      Tail(frames, [f]);
      BlocksNext(start, frames[1..], f);
      Assoc(Block(start, frames[0]), Blocks(start, frames[1..]), Block(start, f));
    }
  }

  lemma FitsIsEncodable(frames: seq<Frame>, maxBytes: nat)
    requires FragmentFits(frames, maxBytes) && maxBytes <= 8 * 1024 * 1024
    ensures Encodable(frames)
  {
    forall i | 0 <= i < |frames| ensures BlockFits(frames[0].timestamp, frames[i]) {
      FrameBounds(frames, i, maxBytes);
    }
  }

  lemma {:induction false} FrameBounds(frames: seq<Frame>, i: nat, maxBytes: nat)
    requires FragmentFits(frames, maxBytes) && i < |frames|
    ensures 0 <= frames[i].timestamp - frames[0].timestamp <= 10000 && |frames[i].data| <= maxBytes
  {
    DataBytesNext(frames, i);
    assert FrameAt(frames, i);
    if i > 0 { FrameBounds(frames, i - 1, maxBytes); }
  }

  /** The first and last time and the bytes of a fragment, or None where the source raises.
      `maxBytes` is at most 8 MiB, as the configuration demands. */
  method Cluster(frames: seq<Frame>, maxBytes: nat) returns (r: Option<(int, int, seq<byte>)>)
    requires 1024 <= maxBytes <= 8 * 1024 * 1024
    ensures r.Some? <==> FragmentFits(frames, maxBytes) && Encodable(frames) && |ClusterBytes(frames)| <= maxBytes
    ensures r.Some? ==> r.value == (frames[0].timestamp, frames[|frames| - 1].timestamp, ClusterBytes(frames))
  {
    if frames == [] || |frames| > 1000 { return None; }
    var start := frames[0].timestamp;
    if !(1 <= start <= MAX_TIME) { return None; }
    var previous, total: nat, blocks: seq<byte> := start - 1, 0, [];
    var k := 0;
    while k < |frames|
      invariant k <= |frames| && Writing(frames, k, maxBytes, previous, total, blocks)
    {
      var ok := CheckFrame(frames, k, previous);
      NextFrame(frames, k, maxBytes, previous, total, blocks);
      total := total + |frames[k].data|;
      if !ok || total > maxBytes - 256 { return None; }
      previous := frames[k].timestamp;
      blocks := blocks + Block(start, frames[k]);
      k := k + 1;
    }
    AllChecked(frames, maxBytes, previous, total, blocks);
    var result := Elem(CLUSTER, Timecode(start) + blocks).value;
    if |result| > maxBytes { return None; }
    return Some((start, previous, result));
  }

  /** The first `k` frames passed, together with the limit on their bytes. */
  ghost predicate Checked(frames: seq<Frame>, k: nat, maxBytes: nat)
    requires k <= |frames|
  {
    k == 0 || (Checked(frames, k - 1, maxBytes) && FrameAt(frames, k - 1) && DataBytes(frames[..k]) <= maxBytes - 256)
  }

  /** Where the loop stands after `k` frames. */
  ghost predicate Writing(frames: seq<Frame>, k: nat, maxBytes: nat, previous: int, total: nat, blocks: seq<byte>)
    requires k <= |frames| && frames != []
  {
    var start := frames[0].timestamp;
    && Checked(frames, k, maxBytes) && start - 1 <= previous
    && previous == (if k == 0 then start - 1 else frames[k - 1].timestamp)
    && total == DataBytes(frames[..k]) && BlocksFit(start, frames[..k]) && blocks == Blocks(start, frames[..k])
  }

  lemma NextFrame(frames: seq<Frame>, k: nat, maxBytes: nat, previous: int, total: nat, blocks: seq<byte>)
    requires k < |frames| && maxBytes <= 8 * 1024 * 1024 && Writing(frames, k, maxBytes, previous, total, blocks)
    ensures var start, f, sum := frames[0].timestamp, frames[k], total + |frames[k].data|;
            if FrameAt(frames, k) && sum <= maxBytes - 256 && 0 <= f.timestamp - start <= 10000
            then BlockFits(start, f) && Writing(frames, k + 1, maxBytes, f.timestamp, sum, blocks + Block(start, f))
            else !FragmentFits(frames, maxBytes)
  {
    DataBytesNext(frames, k);
    var start := frames[0].timestamp;
    if FrameAt(frames, k) && total + |frames[k].data| <= maxBytes - 256 && 0 <= frames[k].timestamp - start <= 10000 {
      assert frames[..k + 1] == frames[..k] + [frames[k]];
      BlocksNext(start, frames[..k], frames[k]);
    } else if FragmentFits(frames, maxBytes) {
      FrameBounds(frames, k, maxBytes);
    }
  }

  lemma {:induction false} CheckedAt(frames: seq<Frame>, k: nat, i: nat, maxBytes: nat)
    requires i < k <= |frames| && Checked(frames, k, maxBytes)
    ensures FrameAt(frames, i)
  {
    if i < k - 1 { CheckedAt(frames, k - 1, i, maxBytes); }
  }

  lemma AllChecked(frames: seq<Frame>, maxBytes: nat, previous: int, total: nat, blocks: seq<byte>)
    requires 1 <= |frames| <= 1000 && 1 <= frames[0].timestamp <= MAX_TIME && maxBytes <= 8 * 1024 * 1024
    requires Writing(frames, |frames|, maxBytes, previous, total, blocks)
    ensures FragmentFits(frames, maxBytes) && Encodable(frames)
    ensures Elem(CLUSTER, Timecode(frames[0].timestamp) + blocks) == Some(ClusterBytes(frames))
  {
    forall i | 0 <= i < |frames| ensures FrameAt(frames, i) { CheckedAt(frames, |frames|, i, maxBytes); }
    assert frames[..|frames|] == frames;
    FitsIsEncodable(frames, maxBytes);
  }

  /** The checks on one frame. */
  method CheckFrame(frames: seq<Frame>, k: nat, previous: int) returns (ok: bool)
    requires k < |frames| && 1 <= frames[0].timestamp <= MAX_TIME && frames[0].timestamp - 1 <= previous
    requires previous == if k == 0 then frames[0].timestamp - 1 else frames[k - 1].timestamp
    ensures ok <==> FrameAt(frames, k)
    ensures ok ==> 0 <= frames[k].timestamp - frames[0].timestamp <= 10000
  {
    var start := frames[0].timestamp;
    var Frame(timestamp, key, data) := frames[k];
    if !(start <= timestamp <= start + 10000 && timestamp <= MAX_TIME) || timestamp <= previous || (k == 0 && !key) {
      return false;
    }
    var types := Walk(data);
    return types.Some? && UnitFits(types.value, key);
  }

  // --- What the capture source writes ---------------------------------------------------------------------------

  /** A unit the capture source puts into an access unit. */
  predicate SourceNal(n: seq<byte>) { GoodNal(n) && Kind(n) in {1, 5, 6} }

  predicate HasKind(unit: seq<seq<byte>>, kind: nat) {
    exists i :: 0 <= i < |unit| && unit[i] != [] && Kind(unit[i]) == kind
  }

  /** An access unit of the capture source passes the walk, with the key flag the source computes. */
  lemma SourceUnitFits(timestamp: int, unit: seq<seq<byte>>)
    requires forall i :: 0 <= i < |unit| ==> SourceNal(unit[i])
    ensures FrameFits(Frame(timestamp, HasKind(unit, 5), Join(unit))) <==> HasKind(unit, 1) || HasKind(unit, 5)
  {
    assert forall i :: 0 <= i < |unit| ==> GoodNal(unit[i]);
    UnitsOfJoin(unit);
    var k := Kinds(unit);
    assert forall i :: 0 <= i < |unit| ==> SourceNal(unit[i]) && k[i] == Kind(unit[i]);
    KindInKinds(unit, 1);
    KindInKinds(unit, 5);
  }

  lemma KindInKinds(unit: seq<seq<byte>>, kind: nat)
    requires forall i :: 0 <= i < |unit| ==> unit[i] != []
    ensures kind in Kinds(unit) <==> HasKind(unit, kind)
  {
    var k := Kinds(unit);
    if HasKind(unit, kind) {
      var i :| 0 <= i < |unit| && unit[i] != [] && Kind(unit[i]) == kind;
      assert k[i] == kind;
    }
  }
}
