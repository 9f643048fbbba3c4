/** UTF-8 as section 3 of RFC 3629 lays it out: the bytes of a string, and back. */
module Utf8 {
  import opened Common

  /** One character, in one to four bytes. */
  function EncodeChar(c: char): (b: seq<byte>)
    ensures |b| == CharSize(c)
  {
    var n := c as int;
    if n < 0x80 then [n]
    else if n < 0x800 then [192 + n / 64, 128 + n % 64]
    else if n < 0x10000 then [224 + n / 4096, 128 + n / 64 % 64, 128 + n % 64]
    else [240 + n / 262144, 128 + n / 4096 % 64, 128 + n / 64 % 64, 128 + n % 64]
  }

  lemma CharShape(c: char)
    ensures var b := EncodeChar(c); !Continuation(b[0]) && forall i :: 1 <= i < |b| ==> Continuation(b[i])
  {}

  /** `byte & 0xC0 == 0x80`: inside a character, not its start. */
  predicate Continuation(b: byte) { 128 <= b < 192 }

  function Encode(s: string): seq<byte> { ConcatMap(EncodeChar, s) }

  /** The length in bytes, without writing the bytes down. */
  function Size(s: string): nat {
    if s == [] then 0 else CharSize(s[0]) + Size(s[1..])
  }

  function CharSize(c: char): nat {
    if c as int < 0x80 then 1 else if c as int < 0x800 then 2 else if c as int < 0x10000 then 3 else 4
  }

  lemma {:induction false} SizeIsLength(s: string)
    ensures Size(s) == |Encode(s)|
  {
    if s != [] { SizeIsLength(s[1..]); }
  }

  lemma {:induction false} SizeConcat(a: string, b: string)
    ensures Size(a + b) == Size(a) + Size(b)
  {
    if a == [] {
      assert a + b == b;
    } else {
      Tail(a, b);
      SizeConcat(a[1..], b);
    }
  }

  lemma EncodeConcat(a: string, b: string)
    ensures Encode(a + b) == Encode(a) + Encode(b)
  {
    ConcatMapAppend(EncodeChar, a, b);
  }

  /** The number of bytes the character with this first byte takes. */
  function Width(lead: byte): nat {
    if lead < 0x80 then 1 else if lead < 0xE0 then 2 else if lead < 0xF0 then 3 else 4
  }

  function Scalar(b: seq<int>): int
    requires 1 <= |b| <= 4
  {
    if |b| == 1 then b[0]
    else if |b| == 2 then (b[0] - 192) * 64 + (b[1] - 128)
    else if |b| == 3 then (b[0] - 224) * 4096 + (b[1] - 128) * 64 + (b[2] - 128)
    else (b[0] - 240) * 262144 + (b[1] - 128) * 4096 + (b[2] - 128) * 64 + (b[3] - 128)
  }

  predicate IsScalar(n: int) { 0 <= n < 0xD800 || 0xE000 <= n < 0x110000 }

  /** The character these bytes are, if they are exactly one. */
  function DecodeChar(b: seq<byte>): (c: Option<char>)
    requires 1 <= |b| <= 4
  {
    if !IsScalar(Scalar(b)) || EncodeChar(Scalar(b) as char) != b then None else Some(Scalar(b) as char)
  }

  /** Strict decoding: only what `Encode` produces is accepted. */
  function Decode(b: seq<byte>): (s: Option<string>) {
    if b == [] then Some([])
    else
      var w := Width(b[0]);
      if |b| < w then None
      else
        var c, rest := DecodeChar(b[..w]), Decode(b[w..]);
        if c == None || rest == None then None else Some([c.value] + rest.value)
  }

  lemma CharRoundTrip(c: char)
    ensures Width(EncodeChar(c)[0]) == |EncodeChar(c)|
    ensures DecodeChar(EncodeChar(c)) == Some(c)
  {
    var n := c as int;
    assert n == n / 64 * 64 + n % 64;
    assert n / 64 == n / 4096 * 64 + n / 64 % 64;
    assert n / 4096 == n / 262144 * 64 + n / 4096 % 64;
  }

  lemma {:induction false} DecodeEncode(s: string)
    ensures Decode(Encode(s)) == Some(s)
  {
    if s != [] {
      var b, h := Encode(s), EncodeChar(s[0]);
      CharRoundTrip(s[0]);
      DecodeEncode(s[1..]);
      assert b[..|h|] == h && b[|h|..] == Encode(s[1..]) && b[0] == h[0];
      assert s == [s[0]] + s[1..];
    }
  }

  /** A place in the bytes that starts a character (or ends the text) cuts the text into two strings. */
  lemma {:induction false} Boundary(s: string, cut: nat) returns (n: nat)
    requires cut <= |Encode(s)| && (cut < |Encode(s)| ==> !Continuation(Encode(s)[cut]))
    ensures n <= |s| && Encode(s[..n]) == Encode(s)[..cut] && Encode(s[n..]) == Encode(s)[cut..]
  {
    if cut == 0 {
      n := 0;
      assert s[0..] == s;
    } else {
      var h, t := EncodeChar(s[0]), Encode(s[1..]);
      CharShape(s[0]);
      assert cut >= |h|;
      if cut < |Encode(s)| { assert Encode(s)[cut] == t[cut - |h|]; }
      var m := Boundary(s[1..], cut - |h|);
      n := m + 1;
      assert s[..n] == [s[0]] + s[1..][..m] && s[n..] == s[1..][m..];
      assert Encode(s)[..cut] == h + t[..cut - |h|] && Encode(s)[cut..] == t[cut - |h|..];
    }
  }

  /** Of any four bytes in a row, one starts a character. */
  lemma {:induction false} RunOfContinuations(s: string, at: nat)
    requires 3 <= at < |Encode(s)|
    ensures var b := Encode(s);
            !(Continuation(b[at]) && Continuation(b[at - 1]) && Continuation(b[at - 2]) && Continuation(b[at - 3]))
  {
    var h, t, b := EncodeChar(s[0]), Encode(s[1..]), Encode(s);
    assert forall i :: |h| <= i < |b| ==> b[i] == t[i - |h|];
    CharShape(s[0]);
    if at >= |h| + 3 {
      RunOfContinuations(s[1..], at - |h|);
    } else if at < |h| {
      assert b[at - 3] == h[0];
    } else if at - |h| <= 2 {
      CharShape(s[1]);
    }
  }
}
