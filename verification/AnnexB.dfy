/** The Annex-B byte stream format (ITU-T H.264 Annex B): NAL units after start codes.
    The reader takes the stream in whatever blocks arrive and keeps only the unfinished unit. */
module AnnexB {
  import opened Common

  const LONG: set<seq<byte>> := {[0, 0, 0, 1]}
  const SHORT: set<seq<byte>> := {[0, 0, 1]}

  /** The length of the start code the bytes begin with: 00 00 00 01, else 00 00 01, else none. */
  function Code(b: seq<byte>): (n: nat)
    ensures n <= |b|
  {
    if |b| >= 4 && b[..4] in LONG then 4 else if |b| >= 3 && b[..3] in SHORT then 3 else 0
  }

  lemma CodeExtend(b: seq<byte>, x: seq<byte>)
    ensures Code(b) > 0 || |b| >= 4 ==> Code(b + x) == Code(b)
  {
    if |b| >= 3 {
      assert (b + x)[..3] == b[..3];
      assert |b| >= 4 ==> (b + x)[..4] == b[..4];
      assert |b| == 3 && |b + x| >= 4 && b in SHORT ==> (b + x)[..4][2] == 1;
    }
  }

  /** Where the leftmost start code stands, or the length of the bytes. */
  function Next(b: seq<byte>): (p: nat)
    ensures p <= |b|
  {
    if b == [] || Code(b) > 0 then 0 else 1 + Next(b[1..])
  }

  lemma {:induction false} NextIsCode(b: seq<byte>)
    ensures Next(b) < |b| ==> Code(b[Next(b)..]) > 0
  {
    if b != [] && Code(b) == 0 {
      NextIsCode(b[1..]);
      assert b[1..][Next(b[1..])..] == b[Next(b)..];
    } else {
      assert b[0..] == b;
    }
  }

  /** Nothing before it is a start code. */
  lemma {:induction false} NextIsLeftmost(b: seq<byte>, q: nat)
    requires q < Next(b)
    ensures Code(b[q..]) == 0
  {
    if q > 0 {
      NextIsLeftmost(b[1..], q - 1);
      assert b[1..][q - 1..] == b[q..];
    } else {
      assert b[0..] == b;
    }
  }

  datatype Scan = Scan(nals: seq<seq<byte>>, held: seq<byte>)

  /** Of bytes that begin with a start code: the units that are finished because another start
      code follows, and the bytes from the last start code on. */
  function ScanNals(b: seq<byte>): (r: Scan)
    requires Code(b) > 0
    ensures Code(r.held) > 0 && |r.held| <= |b|
    decreases |b|
  {
    var rest := b[Code(b)..];
    var n := Next(rest);
    if n == |rest| then Scan([], b)
    else
      NextIsCode(rest);
      var r := ScanNals(rest[n..]);
      Scan([rest[..n]] + r.nals, r.held)
  }

  /** The whole input cut at its leftmost start codes; the last unit runs to the end. */
  function SplitNals(b: seq<byte>): seq<seq<byte>> {
    if Code(b) == 0 then []
    else
      var r := ScanNals(b);
      r.nals + [r.held[Code(r.held)..]]
  }

  /** Start codes and units in turn. */
  function Interleave(codes: seq<seq<byte>>, nals: seq<seq<byte>>): seq<byte> {
    if codes == [] || nals == [] then [] else codes[0] + (nals[0] + Interleave(codes[1..], nals[1..]))
  }

  /** Nothing is lost: the units with their start codes put back are the input. */
  lemma {:induction false} Reassembles(b: seq<byte>) returns (codes: seq<seq<byte>>)
    requires Code(b) > 0
    ensures |codes| == |SplitNals(b)| && forall i :: 0 <= i < |codes| ==> codes[i] in LONG + SHORT
    ensures Interleave(codes, SplitNals(b)) == b
    decreases |b|
  {
    var head, rest := b[..Code(b)], b[Code(b)..];
    var n := Next(rest);
    SplitFirst(b);
    NextIsCode(rest);
    if n < |rest| {
      codes := Reassembles(rest[n..]);
      InterleaveCons(head, rest[..n], codes, SplitNals(rest[n..]));
    } else {
      codes := [];
      InterleaveCons(head, rest, [], []);
    }
    codes := [head] + codes;
  }

  lemma SplitFirst(b: seq<byte>)
    requires Code(b) > 0
    ensures var rest := b[Code(b)..];
            var n := Next(rest);
            && b == b[..Code(b)] + rest && rest == rest[..n] + rest[n..]
            && SplitNals(b) == [rest[..n]] + if n == |rest| then [] else SplitNals(rest[n..])
  {
    var rest := b[Code(b)..];
    NextIsCode(rest);
    if Next(rest) < |rest| {
      var r := ScanNals(rest[Next(rest)..]);
      Assoc([rest[..Next(rest)]], r.nals, [r.held[Code(r.held)..]]);
    } else {
      assert rest[..|rest|] == rest && [] + [rest] == [rest] + [];
    }
  }

  lemma InterleaveCons(code: seq<byte>, nal: seq<byte>, codes: seq<seq<byte>>, nals: seq<seq<byte>>)
    ensures Interleave([code] + codes, [nal] + nals) == code + (nal + Interleave(codes, nals))
  {
    assert ([code] + codes)[1..] == codes && ([nal] + nals)[1..] == nals;
  }

  // --- A cut that stays put when more bytes arrive -----------------------------------

  lemma {:induction false} NextExtend(b: seq<byte>, x: seq<byte>)
    requires Next(b) < |b|
    ensures Next(b + x) == Next(b)
  {
    CodeExtend(b, x);
    if Code(b) == 0 {
      NoLateCode(b);
      Tail(b, x);
      NextExtend(b[1..], x);
    }
  }

  /** A start code within the bytes leaves enough of them to decide about the front. */
  lemma NoLateCode(b: seq<byte>)
    requires Next(b) < |b| && Code(b) == 0
    ensures |b| >= 4
  {
    NextIsCode(b);
    assert |b[Next(b)..]| >= 3;
  }

  lemma {:induction false} ScanExtend(b: seq<byte>, x: seq<byte>)
    requires Code(b) > 0
    ensures Code(b + x) > 0 && Code(ScanNals(b).held + x) > 0
    ensures var r, s := ScanNals(b), ScanNals(ScanNals(b).held + x);
            ScanNals(b + x) == Scan(r.nals + s.nals, s.held)
    decreases |b|
  {
    CodeExtend(b, x);
    var rest := b[Code(b)..];
    var n := Next(rest);
    if n < |rest| {
      NextIsCode(rest);
      NextExtend(rest, x);
      ScanExtend(rest[n..], x);
      Drop(b, x, Code(b));
      Drop(rest, x, n);
      var r := ScanNals(rest[n..]);
      Assoc([rest[..n]], r.nals, ScanNals(r.held + x).nals);
    }
  }

  /** Scanned again, the held bytes are one unfinished unit. */
  lemma {:induction false} HeldIsLast(b: seq<byte>)
    requires Code(b) > 0
    ensures ScanNals(ScanNals(b).held) == Scan([], ScanNals(b).held)
    decreases |b|
  {
    var rest := b[Code(b)..];
    NextIsCode(rest);
    if Next(rest) < |rest| { HeldIsLast(rest[Next(rest)..]); }
  }

  // --- The reader --------------------------------------------------------------------

  /** Whether the bytes are empty or begin with a start code. */
  predicate Delimited(b: seq<byte>) { b == [] || Code(b) > 0 }

  /** How many bytes the reader holds once it has seen `b`. */
  function Held(b: seq<byte>): nat {
    if Code(b) > 0 then |ScanNals(b).held| else |b|
  }

  /** What the reader holds and has yielded after the bytes `seen`. */
  ghost predicate Reading(seen: seq<byte>, buffer: seq<byte>, yielded: seq<seq<byte>>) {
    if Code(seen) > 0 then Scan(yielded, buffer) == ScanNals(seen)
    else Next(seen) == |seen| && buffer == seen && yielded == []
  }

  /** One block more: rescanning only the held bytes finds what rescanning everything would. */
  lemma Step(seen: seq<byte>, buffer: seq<byte>, yielded: seq<seq<byte>>, block: seq<byte>)
    requires Reading(seen, buffer, yielded)
    ensures Code(buffer + block) == 0 <==> Code(seen + block) == 0
    ensures Code(buffer + block) == 0 ==> buffer + block == seen + block && yielded == []
    ensures Code(buffer + block) > 0 ==>
              var r := ScanNals(buffer + block);
              Reading(seen + block, r.held, yielded + r.nals)
  {
    if Code(seen) > 0 {
      ScanExtend(seen, block);
    } else if Code(seen + block) > 0 {
      assert [] + ScanNals(seen + block).nals == ScanNals(seen + block).nals;
    }
  }

  /** At the end of the input the held bytes are one start code and the final unit, so the
      match found before trimming still marks where that unit begins. */
  lemma AtEnd(seen: seq<byte>, buffer: seq<byte>, yielded: seq<seq<byte>>)
    requires Reading(seen, buffer, yielded) && Code(seen) > 0
    ensures Code(buffer) > 0 && ScanNals(buffer) == Scan([], buffer)
    ensures yielded + [buffer[Code(buffer)..]] == SplitNals(seen)
  {
    HeldIsLast(seen);
  }

  /** What has been yielded stays a beginning of the units of the whole input. */
  lemma YieldedStays(seen: seq<byte>, buffer: seq<byte>, yielded: seq<seq<byte>>, rest: seq<byte>)
    requires Reading(seen, buffer, yielded)
    ensures yielded <= SplitNals(seen + rest)
    ensures |buffer| == Held(seen)
  {
    if Code(seen) > 0 { ScanExtend(seen, rest); }
  }

  /** A start code somewhere but not in front: no further bytes put one there. */
  lemma NotInFront(seen: seq<byte>, rest: seq<byte>)
    requires Code(seen) == 0 && Next(seen) < |seen|
    ensures !Delimited(seen + rest)
  {
    NoLateCode(seen);
    CodeExtend(seen, rest);
  }

  /** After none of these further blocks does the reader hold more than `limit` bytes. */
  predicate WithinLimit(seen: seq<byte>, blocks: seq<seq<byte>>, limit: nat)
    decreases |blocks|
  {
    blocks == [] || (Held(seen + blocks[0]) <= limit && WithinLimit(seen + blocks[0], blocks[1..], limit))
  }

  /** The start codes of a buffer that begins with one, leftmost first: the units between
      consecutive ones, and the bytes from the last one on. */
  method Between(all: seq<byte>) returns (nals: seq<seq<byte>>, held: seq<byte>)
    requires Code(all) > 0
    ensures Scan(nals, held) == ScanNals(all)
  {
    nals, held := [], all;
    var rest := held[Code(held)..];
    var n := Next(rest);
    while n < |rest|
      invariant Code(held) > 0 && rest == held[Code(held)..] && n == Next(rest)
      invariant ScanNals(all) == After(nals, ScanNals(held))
      decreases |held|
    {
      NextUnit(held, nals);
      nals, held := nals + [rest[..n]], rest[n..];
      rest := held[Code(held)..];
      n := Next(rest);
    }
  }

  /** More units found before what a scan of the rest finds. */
  function After(nals: seq<seq<byte>>, r: Scan): Scan { Scan(nals + r.nals, r.held) }

  lemma NextUnit(b: seq<byte>, nals: seq<seq<byte>>)
    requires Code(b) > 0 && var rest := b[Code(b)..]; Next(rest) < |rest|
    ensures var rest := b[Code(b)..];
            && Code(rest[Next(rest)..]) > 0
            && After(nals, ScanNals(b)) == After(nals + [rest[..Next(rest)]], ScanNals(rest[Next(rest)..]))
  {
    var rest := b[Code(b)..];
    NextIsCode(rest);
    Assoc(nals, [rest[..Next(rest)]], ScanNals(rest[Next(rest)..]).nals);
  }

  /** One turn of the reader's loop: scan the held bytes with a new block, yield the finished
      units and trim. Refused where a start code does not come first. */
  method Turn(buffer: seq<byte>, block: seq<byte>, ghost seen: seq<byte>, ghost before: seq<seq<byte>>)
    returns (nals: seq<seq<byte>>, held: seq<byte>, end: nat, found: bool, ok: bool)
    requires Reading(seen, buffer, before)
    ensures !ok ==> Code(seen + block) == 0 && Next(seen + block) < |seen + block| && nals == []
    ensures ok ==> Reading(seen + block, held, before + nals) && (found <==> Code(seen + block) > 0)
    ensures ok && found ==> Code(buffer + block) > 0 && Scan(nals, held) == ScanNals(buffer + block)
    ensures ok && found ==> end == |buffer + block| - |held| + Code(held)
  {
    Step(seen, buffer, before, block);
    var all := buffer + block;
    nals, held, end := [], all, 0;
    found, ok := Next(all) < |all|, true;
    assert before + nals == before;
    if found && Next(all) != 0 {
      ok := false;
    } else if found {
      nals, held := Between(all);
      end := |all| - |held| + Code(held);
    }
  }

  /** Split a stream arriving in blocks; the empty block that ends it is not among them. Without
      error the units are those of the whole input, however it was cut into blocks; with one,
      what was yielded is still a beginning of them. */
  method Nals(blocks: seq<seq<byte>>, limit: nat) returns (yielded: seq<seq<byte>>, ok: bool)
    ensures ok ==> yielded == SplitNals(Flatten(blocks))
    ensures yielded <= SplitNals(Flatten(blocks))
    ensures ok <==> Delimited(Flatten(blocks)) && WithinLimit([], blocks, limit)
  {
    var buffer: seq<byte>, rest := [], blocks;
    ghost var seen: seq<byte>, all := [], Flatten(blocks);
    yielded := [];
    while rest != []
      invariant all == seen + Flatten(rest) && Reading(seen, buffer, yielded)
      invariant WithinLimit([], blocks, limit) == WithinLimit(seen, rest, limit)
      decreases |rest|
    {
      Assoc(seen, rest[0], Flatten(rest[1..]));
      var nals, held, fine := NextBlock(buffer, rest[0], seen, Flatten(rest[1..]), yielded);
      yielded, buffer := yielded + nals, held;
      if !fine || |buffer| > limit { return yielded, false; }
      seen, rest := seen + rest[0], rest[1..];
    }
    assert all == seen;
    yielded, ok := LastTurn(buffer, seen, yielded);
  }

  /** The turn for one block, with more to come. */
  method NextBlock(buffer: seq<byte>, block: seq<byte>, ghost seen: seq<byte>, ghost more: seq<byte>,
                   ghost before: seq<seq<byte>>)
    returns (nals: seq<seq<byte>>, held: seq<byte>, ok: bool)
    requires Reading(seen, buffer, before)
    ensures before + nals <= SplitNals(seen + block + more)
    ensures !ok ==> !Delimited(seen + block + more)
    ensures ok ==> Reading(seen + block, held, before + nals) && |held| == Held(seen + block)
  {
    var end, found;
    nals, held, end, found, ok := Turn(buffer, block, seen, before);
    if ok {
      YieldedStays(seen + block, held, before + nals, more);
    } else {
      NotInFront(seen + block, more);
      YieldedStays(seen, buffer, before, block + more);
      Assoc(seen, block, more);
      assert before + nals == before;
    }
  }

  /** The turn with the empty block: the final unit, cut at the match found before trimming. */
  method LastTurn(buffer: seq<byte>, ghost seen: seq<byte>, before: seq<seq<byte>>)
    returns (yielded: seq<seq<byte>>, ok: bool)
    requires Reading(seen, buffer, before)
    ensures ok <==> Delimited(seen)
    ensures ok ==> yielded == SplitNals(seen)
    ensures yielded <= SplitNals(seen)
  {
    var nals, held, end, found, fine := Turn(buffer, [], seen, before);
    assert seen + [] == seen && buffer + [] == buffer;
    if found && fine {
      AtEnd(seen, buffer, before);
      yielded := before + nals + [held[end..]];
      return yielded, true;
    }
    return before, buffer == [];
  }

}
