/** EBML elements (RFC 8794): variable-size integers and tagged data, written and read back. */
module Ebml {
  import opened Common
  import opened Bytes

  function Pow128(k: nat): (p: nat)
    ensures p >= 1
  {
    if k == 0 then 1 else 128 * Pow128(k - 1)
  }

  /** The least size from `size` on, up to 8, that holds `n` without being the reserved all-ones value. */
  function SizeFrom(n: nat, size: nat): (r: Option<nat>)
    requires 1 <= size <= 9
    ensures r.Some? ==> size <= r.value <= 8 && n < Pow128(r.value) - 1
    decreases 9 - size
  {
    if size == 9 then None else if n < Pow128(size) - 1 then Some(size) else SizeFrom(n, size + 1)
  }

  /** Section 4 of RFC 8794: a marker bit after as many zeros as there are further bytes, then
      the number. None where the source raises. */
  function Vint(n: nat): Option<seq<byte>> {
    match SizeFrom(n, 1)
    case None => None
    case Some(size) => Some(ToBytes(Pow128(size) + n, size))
  }

  /** How many bytes the number takes that begins with this byte; 0 if it cannot begin one. */
  function Width(lead: byte): (w: nat)
    ensures w <= 8
  {
    if lead >= 128 then 1 else if lead >= 64 then 2 else if lead >= 32 then 3 else if lead >= 16 then 4
    else if lead >= 8 then 5 else if lead >= 4 then 6 else if lead >= 2 then 7 else if lead == 1 then 8 else 0
  }

  datatype Read<+T> = Read(value: T, rest: seq<byte>)

  /** The number the bytes begin with; None if there is none or it is the reserved value. */
  function ReadVint(b: seq<byte>): Option<Read<nat>> {
    if b == [] then None
    else
      var w := Width(b[0]);
      if w == 0 || |b| < w || FromBytes(b[..w]) < Pow128(w) || FromBytes(b[..w]) >= 2 * Pow128(w) - 1 then None
      else Some(Read(FromBytes(b[..w]) - Pow128(w), b[w..]))
  }

  /** The marker bit of a number of this size, as it stands in the first byte. */
  function Marker(size: nat): (m: nat)
    requires 1 <= size <= 8
    ensures m <= 128
  {
    if size == 1 then 128 else if size == 2 then 64 else if size == 3 then 32 else if size == 4 then 16
    else if size == 5 then 8 else if size == 6 then 4 else if size == 7 then 2 else 1
  }

  lemma {:induction false} MarkerPlace(size: nat)
    requires 1 <= size <= 8
    ensures Pow128(size) == Marker(size) * Pow256(size - 1)
    ensures 2 * Pow128(size) <= Pow256(size)
  {
    if size > 1 { MarkerPlace(size - 1); }
  }

  lemma WidthOfMarker(size: nat, lead: byte)
    requires 1 <= size <= 8 && Marker(size) <= lead < 2 * Marker(size)
    ensures Width(lead) == size
  {}

  lemma VintLead(n: nat, v: nat, size: nat, b: seq<byte>)
    requires 1 <= size <= 8 && n < Pow128(size) && v == Pow128(size) + n && b == ToBytes(v, size)
    ensures Width(b[0]) == size
  {
    MarkerPlace(size);
    Between(Marker(size), Pow256(size - 1), Pow128(size), n);
    FirstByte(v, size, Marker(size), 2 * Marker(size));
    WidthOfMarker(size, b[0]);
  }

  lemma VintValue(n: nat, v: nat, size: nat)
    requires 1 <= size <= 8 && n < Pow128(size) && v == Pow128(size) + n
    ensures FromBytes(ToBytes(v, size)) == v
  {
    MarkerPlace(size);
    FromTo(v, size);
  }

  lemma Between(m: nat, p: nat, q: nat, n: nat)
    requires q == m * p && n < q
    ensures m * p <= q + n < 2 * m * p
  {}

  /** What is written is read back, whatever follows. */
  lemma VintRoundTrip(n: nat, x: seq<byte>)
    requires Vint(n).Some?
    ensures ReadVint(Vint(n).value + x) == Some(Read(n, x))
  {
    var v, size := Vint(n).value, SizeFrom(n, 1).value;
    VintLead(n, Pow128(size) + n, size, v);
    VintValue(n, Pow128(size) + n, size);
    Cut(v, x);
  }

  lemma {:induction false} SizeFromLeast(n: nat, size: nat, w: nat)
    requires 1 <= size <= w <= 8 && n < Pow128(w) - 1
    ensures SizeFrom(n, size).Some? && SizeFrom(n, size).value <= w
    decreases w - size
  {
    if size < w { SizeFromLeast(n, size + 1, w); }
  }

  /** No other encoding of the same number is shorter, and a number with an encoding has this one. */
  lemma VintIsShortest(n: nat, b: seq<byte>)
    requires ReadVint(b) == Some(Read(n, []))
    ensures Vint(n).Some? && |Vint(n).value| <= |b|
  {
    SizeFromLeast(n, 1, Width(b[0]));
  }

  // --- Elements ------------------------------------------------------------------------

  function Elem(tag: seq<byte>, data: seq<byte>): Option<seq<byte>> {
    match Vint(|data|)
    case None => None
    case Some(v) => Some(tag + (v + data))
  }

  function ReadElem(tag: seq<byte>, b: seq<byte>): (r: Option<Read<seq<byte>>>)
    ensures r.Some? && tag != [] ==> |r.value.rest| < |b|
  {
    if !(tag <= b) then None
    else
      match ReadVint(b[|tag|..])
      case None => None
      case Some(n) => if |n.rest| < n.value then None else Some(Read(n.rest[..n.value], n.rest[n.value..]))
  }

  lemma ElemRoundTrip(tag: seq<byte>, data: seq<byte>, x: seq<byte>)
    requires Elem(tag, data).Some?
    ensures ReadElem(tag, Elem(tag, data).value + x) == Some(Read(data, x))
  {
    var v := Vint(|data|).value;
    VintRoundTrip(|data|, data + x);
    Assoc(tag, v + data, x);
    Assoc(v, data, x);
    Cut(tag, v + (data + x));
    Cut(data, x);
  }

  /** Every length a fragment can have is encodable, in at most eight bytes. */
  lemma SmallElem(tag: seq<byte>, data: seq<byte>)
    requires |data| < 0x1_0000_0000
    ensures Elem(tag, data).Some? && |Elem(tag, data).value| <= |tag| + 8 + |data|
  {
    assert Pow128(5) == 34359738368;
    SizeFromLeast(|data|, 1, 5);
  }
}
