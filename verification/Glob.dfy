/** Policy patterns: `*` stands for any run of characters.
    `Matches` is the meaning the regular-expression form gives a pattern; `Glob` is the
    endpoint's single left-to-right pass that always takes the leftmost occurrence. */
module Globbing {
  import opened Text

  /** Character by character, with a free choice of what each `*` swallows. */
  ghost predicate Matches(pattern: string, text: string) {
    if pattern == [] then text == []
    else if pattern[0] == '*' then
      exists k :: 0 <= k <= |text| && Matches(pattern[1..], text[k..])
    else
      text != [] && text[0] == pattern[0] && Matches(pattern[1..], text[1..])
  }

  predicate StartsWith(text: string, part: string) {
    At(text, part, 0)
  }

  predicate EndsWith(text: string, part: string) {
    At(text, part, |text| - |part|)
  }

  /** The literal parts after a `*`, in order, with free choice of where each stands;
      the last one must end the text. */
  ghost predicate Scattered(parts: seq<string>, text: string)
    requires parts != []
  {
    if |parts| == 1 then EndsWith(text, parts[0])
    else exists k :: At(text, parts[0], k) && Scattered(parts[1..], text[k + |parts[0]|..])
  }

  ghost predicate PartsMatch(parts: seq<string>, text: string)
    requires parts != []
  {
    if |parts| == 1 then text == parts[0]
    else StartsWith(text, parts[0]) && Scattered(parts[1..], text[|parts[0]|..])
  }

  /** Skipping less of the text never hurts: what makes the greedy choice safe. */
  lemma {:induction false} ScatteredEarlier(parts: seq<string>, text: string, i: nat)
    requires parts != [] && i <= |text| && Scattered(parts, text[i..])
    ensures Scattered(parts, text)
  {
    if |parts| > 1 {
      var k :| At(text[i..], parts[0], k) && Scattered(parts[1..], text[i..][k + |parts[0]|..]);
      assert text[i..][k..k + |parts[0]|] == text[i + k..i + k + |parts[0]|];
      assert text[i..][k + |parts[0]|..] == text[i + k + |parts[0]|..];
      assert At(text, parts[0], i + k);
    } else {
      var n := |text| - |parts[0]|;
      assert text[i..][n - i..] == text[n..];
    }
  }

  /** Exchange: the leftmost occurrence of a part serves whenever any occurrence does. */
  lemma LeftmostServes(parts: seq<string>, text: string, from: nat)
    requires |parts| > 1 && from <= |text|
    ensures var f := Find(text, parts[0], from);
            Scattered(parts, text[from..]) <==>
              f >= 0 && Scattered(parts[1..], text[f + |parts[0]|..])
  {
    var f := Find(text, parts[0], from);
    if Scattered(parts, text[from..]) {
      var k :| At(text[from..], parts[0], k) && Scattered(parts[1..], text[from..][k + |parts[0]|..]);
      AnyToLeftmost(parts, text, from, k);
    }
    if f >= 0 && Scattered(parts[1..], text[f + |parts[0]|..]) {
      Shift(text, parts[0], from, f - from);
    }
  }

  lemma Shift(text: string, part: string, from: nat, k: nat)
    requires from + k + |part| <= |text|
    ensures At(text[from..], part, k) <==> At(text, part, from + k)
    ensures text[from..][k + |part|..] == text[from + k + |part|..]
  {
    assert text[from..][k..k + |part|] == text[from + k..from + k + |part|];
  }

  lemma AnyToLeftmost(parts: seq<string>, text: string, from: nat, k: nat)
    requires |parts| > 1 && from <= |text|
    requires At(text[from..], parts[0], k) && Scattered(parts[1..], text[from..][k + |parts[0]|..])
    ensures var f := Find(text, parts[0], from);
            f >= 0 && Scattered(parts[1..], text[f + |parts[0]|..])
  {
    Shift(text, parts[0], from, k);
    var f := Find(text, parts[0], from);
    var rest := text[f + |parts[0]|..];
    assert text[from + k + |parts[0]|..] == rest[from + k - f..];
    ScatteredEarlier(parts[1..], rest, from + k - f);
  }

  lemma {:induction false} MatchesByParts(pattern: string, text: string)
    ensures Matches(pattern, text) <==> PartsMatch(Split(pattern, '*'), text)
    decreases |pattern|
  {
    if pattern != [] {
      var parts, rest := Split(pattern, '*'), Split(pattern[1..], '*');
      if pattern[0] == '*' {
        assert parts[1..] == rest && text[0..] == text;
        forall k | 0 <= k <= |text| ensures Matches(pattern[1..], text[k..]) <==> PartsMatch(rest, text[k..]) {
          MatchesByParts(pattern[1..], text[k..]);
        }
        StarIsScattered(rest, text);
      } else {
        if text != [] {
          MatchesByParts(pattern[1..], text[1..]);
          HeadCharacter(pattern[0], rest, text);
        }
      }
    }
  }

  lemma StarIsScattered(parts: seq<string>, text: string)
    requires parts != []
    ensures Scattered(parts, text) <==> exists k :: 0 <= k <= |text| && PartsMatch(parts, text[k..])
  {
    forall k | 0 <= k <= |text| ensures PartsMatch(parts, text[k..]) <==> StandsAt(parts, text, k) {
      if k + |parts[0]| <= |text| { Shift(text, parts[0], k, 0); }
    }
    if |parts| == 1 {
      assert StandsAt(parts, text, |text| - |parts[0]|) <==> EndsWith(text, parts[0]);
    } else {
      if Scattered(parts, text) {
        var k :| At(text, parts[0], k) && Scattered(parts[1..], text[k + |parts[0]|..]);
        assert StandsAt(parts, text, k);
      }
    }
  }

  ghost predicate StandsAt(parts: seq<string>, text: string, k: int)
    requires parts != []
  {
    && At(text, parts[0], k)
    && if |parts| == 1 then k + |parts[0]| == |text| else Scattered(parts[1..], text[k + |parts[0]|..])
  }

  lemma HeadCharacter(c: char, rest: seq<string>, text: string)
    requires rest != [] && text != []
    ensures PartsMatch([[c] + rest[0]] + rest[1..], text) <==> text[0] == c && PartsMatch(rest, text[1..])
  {
    var head, n := [c] + rest[0], |rest[0]|;
    var parts := [head] + rest[1..];
    assert parts[1..] == rest[1..];
    if n < |text| {
      assert text[..n + 1] == [text[0]] + text[1..][..n];
      assert text[n + 1..] == text[1..][n..];
    }
    if text == head { assert text[1..] == rest[0]; }
    if text[0] == c && text[1..] == rest[0] { assert text == head; }
    if StartsWith(text, head) { assert text[1..][..n] == head[1..]; }
  }

  /** The endpoint's matcher: first part as a prefix, middle parts at their leftmost
      occurrence, last part as a suffix of what remains. */
  method Glob(pattern: string, text: string) returns (r: bool)
    ensures r <==> Matches(pattern, text)
  {
    MatchesByParts(pattern, text);
    var parts := Split(pattern, '*');
    if |parts| == 1 {
      JoinOne(pattern);
      return pattern == text;
    }
    if !StartsWith(text, parts[0]) { return false; }
    var position: nat := |parts[0]|;
    var rest := parts[1..];
    while |rest| > 1
      invariant rest != [] && position <= |text|
      invariant Scattered(rest, text[position..]) <==> PartsMatch(parts, text)
      decreases |rest|
    {
      LeftmostServes(rest, text, position);
      var found := Find(text, rest[0], position);
      if found < 0 { return false; }
      position := found + |rest[0]|;
      rest := rest[1..];
    }
    return EndsWith(text[position..], rest[0]) && |text| - position >= |rest[0]|;
  }

  lemma {:induction false} JoinOne(s: string)
    ensures |Split(s, '*')| == 1 ==> Split(s, '*') == [s]
  {
    if s != [] {
      JoinOne(s[1..]);
      assert s == [s[0]] + s[1..];
    }
  }
}
