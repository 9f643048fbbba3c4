/** Python's `str.split` and `str.find`, as the topic and policy code uses them. */
module Text {
  import opened Common

  /** Cut a string at every separator; an empty string is one empty part. */
  function Split(s: string, sep: char): (parts: seq<string>)
    ensures |parts| >= 1
  {
    if s == [] then [[]]
    else
      var rest := Split(s[1..], sep);
      if s[0] == sep then [[]] + rest
      else [[s[0]] + rest[0]] + rest[1..]
  }

  /** Two lists of parts side by side, the part where they meet shared. */
  function Meet(x: seq<string>, y: seq<string>): seq<string>
    requires x != [] && y != []
  {
    if |x| == 1 then [x[0] + y[0]] + y[1..] else [x[0]] + Meet(x[1..], y)
  }

  lemma {:induction false} SplitConcat(a: string, b: string, sep: char)
    ensures Split(a + b, sep) == Meet(Split(a, sep), Split(b, sep))
  {
    if a == [] {
      assert a + b == b;
      assert [] + Split(b, sep)[0] == Split(b, sep)[0];
    } else {
      SplitConcat(a[1..], b, sep);
      Tail(a, b);
      var y, z := Split(b, sep), Split(a[1..], sep);
      if a[0] == sep {
        assert ([[]] + z)[1..] == z;
      } else {
        Assoc([a[0]], z[0], y[0]);
      }
    }
  }

  /** `part` stands in `text` at position `k`. */
  predicate At(text: string, part: string, k: int) {
    0 <= k && k + |part| <= |text| && text[k..k + |part|] == part
  }

  /** The leftmost position at or after `from` where `part` stands, or -1. */
  function Find(text: string, part: string, from: nat): (r: int)
    ensures r == -1 || (from <= r && At(text, part, r))
    ensures forall k :: from <= k && At(text, part, k) ==> 0 <= r <= k
    decreases |text| - from
  {
    if from + |part| > |text| then -1
    else if At(text, part, from) then from
    else if from == |text| then -1
    else Find(text, part, from + 1)
  }
}
