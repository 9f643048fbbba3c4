/** MQTT packet framing: a first byte, the remaining length (section 2.2.3 of MQTT 3.1.1), the body. */
module Framing {
  import opened Common

  datatype Packet = Packet(first: byte, body: seq<byte>)

  /** Seven bits a byte, least significant first, the top bit on all but the last. */
  function EncodeLength(n: nat): seq<byte> {
    if n < 128 then [n] else [n % 128 + 128] + EncodeLength(n / 128)
  }

  function EncodePacket(p: Packet): seq<byte> {
    [p.first] + (EncodeLength(|p.body|) + p.body)
  }

  datatype Length = Length(value: nat, rest: seq<byte>)

  /** The length the bytes begin with and what follows it; None if it is not complete. */
  function ParseLength(b: seq<byte>): (r: Option<Length>)
    ensures r.Some? ==> |r.value.rest| < |b| && r.value.rest == b[|b| - |r.value.rest|..]
  {
    if b == [] then None
    else if b[0] < 128 then Some(Length(b[0], b[1..]))
    else
      match ParseLength(b[1..])
      case None => None
      case Some(more) => Some(Length(b[0] % 128 + 128 * more.value, more.rest))
  }

  datatype Parsed = Parsed(packet: Packet, rest: seq<byte>)

  /** The packet the bytes begin with and what follows it; None if it is not complete. */
  function Parse(b: seq<byte>): (r: Option<Parsed>)
    ensures r.Some? ==> |r.value.rest| < |b|
  {
    if |b| < 2 then None
    else
      match ParseLength(b[1..])
      case None => None
      case Some(n) =>
        if |n.rest| < n.value then None
        else Some(Parsed(Packet(b[0], n.rest[..n.value]), n.rest[n.value..]))
  }

  // --- Round trip -------------------------------------------------------------------

  lemma {:induction false} LengthRoundTrip(n: nat, x: seq<byte>)
    ensures ParseLength(EncodeLength(n) + x) == Some(Length(n, x))
  {
    var b := EncodeLength(n) + x;
    if n < 128 {
      assert b[1..] == x;
    } else {
      LengthRoundTrip(n / 128, x);
      Tail(EncodeLength(n), x);
      assert EncodeLength(n)[1..] == EncodeLength(n / 128);
    }
  }

  /** Any bytes may follow: exactly the packet comes back, and exactly they are left. */
  lemma ParseEncode(p: Packet, x: seq<byte>)
    ensures Parse(EncodePacket(p) + x) == Some(Parsed(p, x))
  {
    var l := EncodeLength(|p.body|);
    var b := EncodePacket(p) + x;
    LengthRoundTrip(|p.body|, p.body + x);
    Tail(EncodePacket(p), x);
    assert EncodePacket(p)[1..] == l + p.body;
    Assoc(l, p.body, x);
    Cut(p.body, x);
  }

  lemma {:induction false} LengthExtend(b: seq<byte>, x: seq<byte>)
    requires ParseLength(b).Some?
    ensures ParseLength(b + x) == Some(Length(ParseLength(b).value.value, ParseLength(b).value.rest + x))
  {
    Tail(b, x);
    if b[0] >= 128 { LengthExtend(b[1..], x); }
  }

  /** A complete packet stays what it is when more bytes arrive. */
  lemma ParseExtend(b: seq<byte>, x: seq<byte>)
    requires Parse(b).Some?
    ensures Parse(b + x) == Some(Parsed(Parse(b).value.packet, Parse(b).value.rest + x))
  {
    Tail(b, x);
    LengthExtend(b[1..], x);
    var n := ParseLength(b[1..]).value;
    Drop(n.rest, x, n.value);
  }

  /** No proper beginning of a packet is taken for one. */
  lemma PrefixParsesToNothing(p: Packet, k: nat)
    requires k < |EncodePacket(p)|
    ensures Parse(EncodePacket(p)[..k]) == None
  {
    var e := EncodePacket(p);
    var b, x := e[..k], e[k..];
    assert b + x == e && e + [] == e;
    ParseEncode(p, []);
    if Parse(b).Some? { ParseExtend(b, x); }
  }

  // --- The codec's own loops ----------------------------------------------------------

  method Encode(first: byte, body: seq<byte>) returns (out: seq<byte>)
    ensures out == EncodePacket(Packet(first, body))
  {
    out := [first];
    var length: nat := |body|;
    var done := false;
    while !done
      invariant [first] + EncodeLength(|body|) == if done then out else out + EncodeLength(length)
      decreases !done, length
    {
      var b := length % 128;
      length := length / 128;
      Assoc(out, [if length > 0 then b + 128 else b], EncodeLength(length));
      out := out + [if length > 0 then b + 128 else b];
      done := length == 0;
    }
    Assoc([first], EncodeLength(|body|), body);
    out := out + body;
  }

  /** What is left of the length at `index`, scaled and added to what was read, is the whole. */
  ghost predicate Reading(whole: Option<Length>, length: nat, multiplier: nat, left: Option<Length>) {
    match left
    case None => whole == None
    case Some(l) => whole == Some(Length(length + multiplier * l.value, l.rest))
  }

  /** One byte of the length: its low seven bits, scaled, are added. */
  method ReadByte(length: nat, multiplier: nat, b: byte, ghost whole: Option<Length>, ghost left: seq<byte>)
    returns (l: nat, m: nat)
    requires left != [] && b == left[0] && Reading(whole, length, multiplier, ParseLength(left))
    ensures b >= 128 ==> Reading(whole, l, m, ParseLength(left[1..]))
    ensures b < 128 ==> whole == Some(Length(l, left[1..]))
  {
    if b >= 128 && ParseLength(left[1..]).Some? { Scale(multiplier, b % 128, ParseLength(left[1..]).value.value); }
    l, m := length + b % 128 * multiplier, multiplier * 128;
  }

  lemma Scale(m: int, d: int, v: int)
    ensures m * (d + 128 * v) == d * m + m * 128 * v
  {}

  /** The remaining length after the first byte and where it ends. */
  method DecodeLength(buffer: seq<byte>) returns (length: nat, index: nat, complete: bool)
    requires buffer != []
    ensures complete <==> ParseLength(buffer[1..]).Some?
    ensures complete ==> index <= |buffer| && ParseLength(buffer[1..]) == Some(Length(length, buffer[index..]))
  {
    var multiplier: nat;
    length, multiplier, index := 0, 1, 1;
    ghost var whole := ParseLength(buffer[1..]);
    while index < |buffer|
      invariant 1 <= index <= |buffer| && Reading(whole, length, multiplier, ParseLength(buffer[index..]))
    {
      var b := buffer[index];
      Slice(buffer, index, 1);
      length, multiplier := ReadByte(length, multiplier, b, whole, buffer[index..]);
      index := index + 1;
      if b < 128 { return length, index, true; }
    }
    return length, index, false;
  }

  /** The packet at the front of the buffer and how many bytes it takes. */
  method Decode(buffer: seq<byte>) returns (r: Option<(Packet, nat)>)
    ensures r.None? <==> Parse(buffer).None?
    ensures r.Some? ==> r.value.1 <= |buffer| && Parse(buffer) == Some(Parsed(r.value.0, buffer[r.value.1..]))
  {
    if |buffer| < 2 { return None; }
    var length, index, complete := DecodeLength(buffer);
    if !complete || |buffer| < index + length { return None; }
    Slice(buffer, index, length);
    return Some((Packet(buffer[0], buffer[index..index + length]), index + length));
  }

  lemma Slice(buffer: seq<byte>, i: nat, n: nat)
    requires i + n <= |buffer|
    ensures buffer[i..][..n] == buffer[i..i + n] && buffer[i..][n..] == buffer[i + n..]
  {}

  // --- The receive loop -----------------------------------------------------------------

  /** All complete packets, in order. */
  function Packets(b: seq<byte>): seq<Packet>
    decreases |b|
  {
    match Parse(b)
    case None => []
    case Some(r) => [r.packet] + Packets(r.rest)
  }

  /** What was sent is what arrives. */
  lemma {:induction false} PacketsOfEncoded(ps: seq<Packet>)
    ensures Packets(ConcatMap(EncodePacket, ps)) == ps
  {
    if ps != [] {
      PacketsOfEncoded(ps[1..]);
      ParseEncode(ps[0], ConcatMap(EncodePacket, ps[1..]));
      assert ps == [ps[0]] + ps[1..];
    }
  }

  /** The packets a handler sees: all up to and including the first after which it closes.
      `keep` may look at everything handled so far. */
  function UpToClose(keep: seq<Packet> -> bool, done: seq<Packet>, packets: seq<Packet>): seq<Packet>
    decreases |packets|
  {
    if packets == [] then done
    else
      var now := done + [packets[0]];
      if keep(now) then UpToClose(keep, now, packets[1..]) else now
  }

  /** Receive in whatever chunks arrive; every chunking of the same bytes is handled alike. */
  method Serve(chunks: seq<seq<byte>>, keep: seq<Packet> -> bool) returns (handled: seq<Packet>)
    ensures handled == UpToClose(keep, [], Packets(Flatten(chunks)))
  {
    var buffer: seq<byte>, rest, open := [], chunks, true;
    ghost var goal := UpToClose(keep, [], Packets(Flatten(chunks)));
    handled := [];
    assert buffer + Flatten(rest) == Flatten(chunks);
    while rest != []
      invariant goal == UpToClose(keep, handled, Packets(buffer + Flatten(rest)))
      invariant Parse(buffer).None?
      decreases |rest|
    {
      Assoc(buffer, rest[0], Flatten(rest[1..]));
      buffer, handled, open := Drain(keep, buffer + rest[0], handled, Flatten(rest[1..]));
      if !open { return; }
      rest := rest[1..];
    }
    assert buffer + [] == buffer;
  }

  /** Hand over every complete packet in the buffer, with `more` still to arrive. */
  method Drain(keep: seq<Packet> -> bool, received: seq<byte>, before: seq<Packet>, ghost more: seq<byte>)
    returns (buffer: seq<byte>, handled: seq<Packet>, open: bool)
    ensures var goal := UpToClose(keep, before, Packets(received + more));
            if open then Parse(buffer).None? && goal == UpToClose(keep, handled, Packets(buffer + more))
                else handled == goal
  {
    buffer, handled := received, before;
    while true
      invariant UpToClose(keep, before, Packets(received + more)) == UpToClose(keep, handled, Packets(buffer + more))
      decreases |buffer|
    {
      var packet := Decode(buffer);
      if packet.None? { return buffer, handled, true; }
      var (p, used) := packet.value;
      ParseExtend(buffer, more);
      Handle(keep, handled, p, Packets(buffer[used..] + more));
      buffer, handled := buffer[used..], handled + [p];
      if !keep(handled) { return buffer, handled, false; }
    }
  }

  lemma Handle(keep: seq<Packet> -> bool, done: seq<Packet>, p: Packet, more: seq<Packet>)
    ensures UpToClose(keep, done, [p] + more) ==
            if keep(done + [p]) then UpToClose(keep, done + [p], more) else done + [p]
  {
    assert ([p] + more)[1..] == more;
  }
}
