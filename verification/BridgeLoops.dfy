/** When a message that a bridge sends out over a link is taken back in from it: exactly which
    accepted pairs of mappings do so. */
module BridgeLoops {
  import opened Common
  import opened Text
  import opened Topics
  import Utf8

  /** Some topic goes out under the one mapping and comes back under the other. */
  ghost predicate Reimports(out: Mapping, inbound: Mapping) { exists topic :: GoesRound(out, inbound, topic) }

  ghost predicate GoesRound(out: Mapping, inbound: Mapping, topic: string) {
    FilterMatches(out.topic, topic) == Some(true) && FilterMatches(inbound.topic, out.prefix + topic) == Some(true)
  }

  // --- The condition -----------------------------------------------------------------------------------

  predicate Wild(level: string) { level == "+" || level == "#" }

  /** What a filter says about the levels after a topic's first one. */
  function Below(f: seq<string>): seq<string>
    requires f != []
  {
    if f[0] == "#" then ["#"] else f[1..]
  }

  /** Some levels match both lists, and there are any if the topic would otherwise be empty. */
  predicate Onward(f: seq<string>, y: seq<string>, text: string) {
    LevelsOverlap(f, y) && (text != "" || (f != [] && y != []))
  }

  /** The level where the prefix text `q` runs into the first level of the topic: a wildcard of the
      outgoing filter stands for any text after `q` that does not begin with `$`. */
  predicate MeetsAt(q: string, f: seq<string>, y: seq<string>)
    requires f != [] && y != []
  {
    if y[0] == "#" then true
    else if y[0] == "+" then Onward(Below(f), y[1..], if Wild(f[0]) then "x" else f[0])
    else if Wild(f[0]) then
      HasPrefix(y[0], q) && !HasPrefix(y[0][|q|..], "$") && Onward(Below(f), y[1..], y[0][|q|..])
    else y[0] == q + f[0] && Onward(Below(f), y[1..], f[0])
  }

  /** The prefix's levels, then the outgoing filter, against the incoming filter. */
  predicate LevelsLoop(p: seq<string>, f: seq<string>, y: seq<string>)
    requires p != [] && f != []
  {
    if y == [] then false
    else if |p| == 1 then MeetsAt(p[0], f, y)
    else y[0] == "#" || ((y[0] == "+" || y[0] == p[0]) && LevelsLoop(p[1..], f, y[1..]))
  }

  predicate PlainText(s: string) { '+' !in s && '#' !in s && '\0' !in s }

  /** A prefix without wildcards that is not shielded, and levels that loop. */
  predicate LoopsBack(out: Mapping, inbound: Mapping) {
    && PlainText(out.prefix) && !Shielded(inbound.topic, out.prefix)
    && LevelsLoop(Levels(out.prefix), Levels(out.topic), Levels(inbound.topic))
  }

  // --- Texts and their levels ----------------------------------------------------------------------------

  function Join(levels: seq<string>): string
    requires levels != []
  {
    if |levels| == 1 then levels[0] else levels[0] + ("/" + Join(levels[1..]))
  }

  predicate TextLevel(level: string) { '/' !in level && '\0' !in level }

  predicate TextLevels(levels: seq<string>) { forall i :: 0 <= i < |levels| ==> TextLevel(levels[i]) }

  lemma {:induction false} LevelsJoin(t: seq<string>)
    requires t != [] && TextLevels(t)
    ensures Levels(Join(t)) == t
  {
    OneLevel(t[0]);
    if |t| > 1 {
      var rest := Join(t[1..]);
      LevelsJoin(t[1..]);
      assert ("/" + rest)[1..] == rest;
      assert Levels("/" + rest) == [""] + t[1..];
      SplitConcat(t[0], "/" + rest, '/');
      assert t[0] + "" == t[0] && ([""] + t[1..])[1..] == t[1..];
    }
  }

  lemma {:induction false} LevelsAreText(s: string)
    requires '\0' !in s
    ensures TextLevels(Levels(s))
  {
    if s != [] {
      LevelsAreText(s[1..]);
      var rest := Levels(s[1..]);
      assert TextLevel(rest[0]);
      assert s[0] != '\0';
    }
  }

  lemma FirstLevel(s: string)
    requires s != []
    ensures Levels(s) != [""] && (Levels(s)[0] != "" ==> Levels(s)[0][0] == s[0])
    ensures Levels(s)[0] == "" ==> s[0] == '/'
  {
    var rest := Levels(s[1..]);
    assert Levels(s)[0] == if s[0] == '/' then "" else [s[0]] + rest[0];
    assert s[0] == '/' ==> |Levels(s)| == 1 + |rest|;
  }

  lemma {:induction false} JoinIsPlain(t: seq<string>)
    requires t != [] && PlainLevels(t) && TextLevels(t)
    ensures PlainText(Join(t)) && (t != [""] ==> Join(t) != "")
  {
    assert PlainLevel(t[0]) && TextLevel(t[0]);
    if |t| > 1 { JoinIsPlain(t[1..]); }
  }

  function LevelsSize(levels: seq<string>): nat {
    if levels == [] then 0 else Utf8.Size(levels[0]) + 1 + LevelsSize(levels[1..])
  }

  lemma {:induction false} JoinSize(t: seq<string>)
    requires t != []
    ensures Utf8.Size(Join(t)) + 1 == LevelsSize(t)
  {
    if |t| > 1 {
      var rest := Join(t[1..]);
      JoinSize(t[1..]);
      Utf8.SizeConcat(t[0], "/" + rest);
      Utf8.SizeConcat("/", rest);
      assert "/"[1..] == "";
    }
  }

  lemma {:induction false} SizeOfLevels(s: string)
    ensures LevelsSize(Levels(s)) == Utf8.Size(s) + 1
  {
    if s != [] {
      SizeOfLevels(s[1..]);
      var rest := Levels(s[1..]);
      if s[0] == '/' {
        assert ([""] + rest)[1..] == rest;
      } else {
        assert ([s[0]] + rest[0])[1..] == rest[0];
        assert ([[s[0]] + rest[0]] + rest[1..])[1..] == rest[1..];
      }
    }
  }

  // --- If a message goes round, the condition holds ------------------------------------------------------

  lemma WildFirst(filter: string)
    requires ValidFilter(filter) && Wild(Levels(filter)[0])
    ensures filter[0] in "+#"
  {
    FirstLevel(filter);
  }

  lemma OnwardFrom(f: seq<string>, y: seq<string>, text: string, rest: seq<string>)
    requires LevelsMatch(f, rest) && LevelsMatch(y, rest) && (text == "" ==> rest != [])
    ensures Onward(f, y, text)
  {
    LevelsOverlapComplete(f, y, rest);
  }

  /** A wildcard does not stand for a first level that begins with `$`. */
  lemma MeetFrom(q: string, f: seq<string>, y: seq<string>, t: seq<string>)
    requires f != [] && y != [] && t != [] && t != [""] && LevelsMatch(f, t) && LevelsMatch(y, [q + t[0]] + t[1..])
    requires Wild(f[0]) ==> !HasPrefix(t[0], "$")
    ensures MeetsAt(q, f, y)
  {
    var m, rest := [q + t[0]] + t[1..], t[1..];
    assert m[1..] == rest;
    assert t == [t[0]] + rest;
    assert LevelsMatch(Below(f), rest);
    if y[0] != "#" {
      OnwardFrom(Below(f), y[1..], t[0], rest);
      if y[0] != "+" && Wild(f[0]) { assert (q + t[0])[|q|..] == t[0]; }
    }
  }

  lemma {:induction false} LoopFrom(p: seq<string>, f: seq<string>, y: seq<string>, t: seq<string>)
    requires p != [] && PlainLevels(p) && f != [] && t != [] && t != [""] && LevelsMatch(f, t)
    requires LevelsMatch(y, Meet(p, t))
    requires Wild(f[0]) ==> !HasPrefix(t[0], "$")
    ensures LevelsLoop(p, f, y)
  {
    if |p| == 1 {
      MeetFrom(p[0], f, y, t);
    } else if y[0] != "#" {
      assert PlainLevels(p[1..]);
      assert Meet(p, t)[1..] == Meet(p[1..], t);
      LoopFrom(p[1..], f, y[1..], t);
    }
  }

  lemma ReimportLoops(out: Mapping, inbound: Mapping, topic: string)
    requires GoesRound(out, inbound, topic) && out.prefix != ""
    ensures LoopsBack(out, inbound)
  {
    var sent := out.prefix + topic;
    assert PlainText(out.prefix) by { assert forall c :: c in out.prefix ==> c in sent; }
    assert sent[0] == out.prefix[0];
    PlainSplit(out.prefix);
    SplitConcat(out.prefix, topic, '/');
    FirstLevel(topic);
    var f, t := Levels(out.topic), Levels(topic);
    if Wild(f[0]) { WildFirst(out.topic); }
    LoopFrom(Levels(out.prefix), f, Levels(inbound.topic), t);
  }

  // --- If the condition holds, some message goes round ----------------------------------------------------

  /** A filter's levels as they come from its text. */
  predicate TextFilter(x: seq<string>) { FilterLevels(x) && TextLevels(x) }

  lemma TextFilterTail(x: seq<string>)
    requires x != [] && TextFilter(x)
    ensures TextFilter(x[1..]) && TextLevel(x[0]) && ValidLevel(x[0], |x| == 1)
  {
    TailLevels(x);
  }

  lemma {:induction false} ConcreteFits(x: seq<string>)
    requires TextFilter(x)
    ensures TextLevels(Concrete(x)) && LevelsSize(Concrete(x)) <= LevelsSize(x) && (x != [] ==> Concrete(x) != [])
  {
    if x != [] && x[0] != "#" {
      TextFilterTail(x);
      ConcreteFits(x[1..]);
      assert Concrete(x)[1..] == Concrete(x[1..]);
      assert Utf8.Size("x") == 1 && Utf8.Size("+") == 1;
    } else if x != [] {
      assert Utf8.Size("x") == 1 && Utf8.Size("#") == 1;
      assert ["x"][1..] == [];
    }
  }

  lemma {:induction false} WitnessFits(x: seq<string>, y: seq<string>)
    requires TextFilter(x) && TextFilter(y) && LevelsOverlap(x, y)
    ensures TextLevels(Witness(x, y)) && LevelsSize(Witness(x, y)) <= LevelsSize(x) + LevelsSize(y)
    ensures x != [] && y != [] ==> Witness(x, y) != []
    decreases |x|
  {
    if x != [] && x[0] == "#" {
      ConcreteFits(y);
    } else if y != [] && y[0] == "#" {
      ConcreteFits(x);
    } else if x != [] && y != [] {
      TextFilterTail(x);
      TextFilterTail(y);
      WitnessFits(x[1..], y[1..]);
      assert Witness(x, y)[1..] == Witness(x[1..], y[1..]);
      assert Utf8.Size("x") == 1 && Utf8.Size("+") == 1;
    }
  }

  /** Levels of a topic that goes out under `f` and, after the prefix levels `p`, comes in under `y`. */
  ghost predicate Round(p: seq<string>, f: seq<string>, y: seq<string>, t: seq<string>)
    requires p != []
  {
    && t != [] && t != [""] && PlainLevels(t) && TextLevels(t)
    && LevelsMatch(f, t) && LevelsMatch(y, Meet(p, t)) && (f != [] && Wild(f[0]) ==> !HasPrefix(t[0], "$"))
  }

  ghost predicate ShortRound(p: seq<string>, f: seq<string>, y: seq<string>, t: seq<string>)
    requires p != []
  {
    Round(p, f, y, t) && LevelsSize(t) <= LevelsSize(f) + LevelsSize(y)
  }

  lemma FreeRound(p: seq<string>, f: seq<string>, y: seq<string>)
    requires p != [] && TextFilter(f) && f != [] && f != [""] && y != [] && y[0] == "#"
    ensures ShortRound(p, f, y, Concrete(f))
  {
    ConcreteMatches(f);
    ConcreteFits(f);
    TextFilterTail(f);
    if |f| > 1 && f[0] != "#" { ConcreteFits(f[1..]); }
  }

  lemma RoundRest(f: seq<string>, y: seq<string>, text: string) returns (rest: seq<string>)
    requires TextFilter(f) && f != [] && TextFilter(y) && y != [] && Onward(Below(f), y[1..], text)
    ensures PlainLevels(rest) && TextLevels(rest) && LevelsMatch(Below(f), rest) && LevelsMatch(y[1..], rest)
    ensures LevelsSize(rest) <= LevelsSize(Below(f)) + LevelsSize(y[1..]) && (text == "" ==> rest != [])
  {
    TextFilterTail(f);
    TextFilterTail(y);
    assert ValidLevel("#", true) && TextFilter(["#"]);
    rest := Witness(Below(f), y[1..]);
    WitnessMatches(Below(f), y[1..]);
    WitnessFits(Below(f), y[1..]);
  }

  lemma MatchFirst(f: seq<string>, text: string, rest: seq<string>)
    requires f != [] && LevelsMatch(Below(f), rest) && (f[0] == text || Wild(f[0]))
    ensures LevelsMatch(f, [text] + rest)
  {
    assert ([text] + rest)[1..] == rest;
  }

  lemma RoundAt(q: string, f: seq<string>, y: seq<string>, text: string) returns (t: seq<string>)
    requires TextFilter(f) && f != [] && TextFilter(y) && y != [] && y[0] != "#" && Onward(Below(f), y[1..], text)
    requires PlainLevel(text) && TextLevel(text) && (f[0] == text || Wild(f[0])) && (y[0] == q + text || y[0] == "+")
    requires Wild(f[0]) ==> !HasPrefix(text, "$")
    requires Utf8.Size(text) + 1 + LevelsSize(Below(f)) <= LevelsSize(f) + Utf8.Size(y[0]) + 1
    ensures ShortRound([q], f, y, t)
  {
    var rest := RoundRest(f, y, text);
    t := [text] + rest;
    MatchFirst(f, text, rest);
    MatchFirst(y, q + text, rest);
    assert Meet([q], t) == [q + text] + rest;
    assert t[1..] == rest;
  }

  lemma OneSizes()
    ensures Utf8.Size("x") == 1 && Utf8.Size("+") == 1 && Utf8.Size("#") == 1 && LevelsSize(["#"]) == 2
  {
    assert LevelsSize(["#"][1..]) == 0;
    assert Utf8.Size("#") == 1;
  }

  lemma MeetRound(q: string, f: seq<string>, y: seq<string>) returns (t: seq<string>)
    requires TextFilter(f) && f != [] && f != [""] && TextFilter(y) && y != [] && MeetsAt(q, f, y)
    ensures ShortRound([q], f, y, t)
  {
    TextFilterTail(f);
    TextFilterTail(y);
    OneSizes();
    if y[0] == "#" {
      FreeRound([q], f, y);
      t := Concrete(f);
    } else {
      var text := if !Wild(f[0]) then f[0] else if y[0] == "+" then "x" else y[0][|q|..];
      if Wild(f[0]) && y[0] != "+" {
        assert y[0] == q + text;
        Utf8.SizeConcat(q, text);
      }
      assert f[0] == "#" ==> |f| == 1 && LevelsSize(f) == 2;
      t := RoundAt(q, f, y, text);
    }
  }

  lemma {:induction false} LoopRound(p: seq<string>, f: seq<string>, y: seq<string>) returns (t: seq<string>)
    requires p != [] && TextFilter(f) && f != [] && f != [""] && TextFilter(y) && LevelsLoop(p, f, y)
    ensures ShortRound(p, f, y, t)
    decreases |p|
  {
    if |p| == 1 {
      t := MeetRound(p[0], f, y);
      assert p == [p[0]];
    } else if y[0] == "#" {
      FreeRound(p, f, y);
      t := Concrete(f);
    } else {
      TextFilterTail(y);
      t := LoopRound(p[1..], f, y[1..]);
      assert Meet(p, t)[1..] == Meet(p[1..], t);
    }
  }

  /** Exact on levels, whatever their length. */
  lemma LoopExact(p: seq<string>, f: seq<string>, y: seq<string>)
    requires p != [] && PlainLevels(p) && TextFilter(f) && f != [] && f != [""] && TextFilter(y)
    ensures LevelsLoop(p, f, y) <==> exists t :: Round(p, f, y, t)
  {
    if LevelsLoop(p, f, y) { var t := LoopRound(p, f, y); }
    if t :| Round(p, f, y, t) { LoopFrom(p, f, y, t); }
  }

  lemma FilterText(filter: string)
    requires ValidFilter(filter)
    ensures TextFilter(Levels(filter)) && Levels(filter) != [""] && (filter[0] in "+#" ==> Wild(Levels(filter)[0]))
  {
    LevelsAreText(filter);
    FirstLevel(filter);
    var first := Levels(filter)[0];
    assert ValidLevel(first, |Levels(filter)| == 1);
    if filter[0] in "+#" { assert first[0] in first; }
  }

  lemma JoinIsTopic(t: seq<string>)
    requires t != [] && t != [""] && PlainLevels(t) && TextLevels(t) && LevelsSize(t) <= 600
    ensures ValidTopic(Join(t)) && Levels(Join(t)) == t && Utf8.Size(Join(t)) < 600
  {
    LevelsJoin(t);
    JoinIsPlain(t);
    JoinSize(t);
    SmallSize(Join(t));
  }

  lemma SentIsTopic(prefix: string, topic: string)
    requires ValidTopic(topic) && PlainText(prefix) && Utf8.Size(prefix) <= 64000 && Utf8.Size(topic) < 600
    ensures ValidTopic(prefix + topic)
  {
    Utf8.SizeConcat(prefix, topic);
  }

  lemma LoopReimports(out: Mapping, inbound: Mapping) returns (topic: string)
    requires ValidFilter(out.topic) && ValidFilter(inbound.topic) && Utf8.Size(out.topic) <= 256
    requires Utf8.Size(inbound.topic) <= 256
    requires LoopsBack(out, inbound) && out.prefix != "" && Utf8.Size(out.prefix) <= 64000
    ensures GoesRound(out, inbound, topic)
  {
    var p, f, y := Levels(out.prefix), Levels(out.topic), Levels(inbound.topic);
    FilterText(out.topic);
    FilterText(inbound.topic);
    SizeOfLevels(out.topic);
    SizeOfLevels(inbound.topic);
    var t := LoopRound(p, f, y);
    JoinIsTopic(t);
    topic := Join(t);
    SentIsTopic(out.prefix, topic);
    SplitConcat(out.prefix, topic, '/');
    FirstLevel(topic);
    assert (out.prefix + topic)[0] == out.prefix[0];
  }

  /** An accepted pair takes back in what it sends if and only if its prefix and filter do not form a
      filter, so that the loop test passes them by, and the levels loop. */
  lemma ReimportExact(awsIot: bool, broker: bool, mappings: seq<Mapping>, out: Mapping, inbound: Mapping)
    requires MappingError(awsIot, broker, mappings) == None && out in mappings && inbound in mappings
    requires out.source == Pubsub && inbound.source == out.target
    ensures Reimports(out, inbound) ==> !ValidFilter(out.Produced()) && LoopsBack(out, inbound)
    ensures !ValidFilter(out.Produced()) && LoopsBack(out, inbound) && Utf8.Size(out.prefix) <= 64000 ==>
              Reimports(out, inbound)
  {
    var i :| 0 <= i < |mappings| && mappings[i] == out;
    var j :| 0 <= j < |mappings| && mappings[j] == inbound;
    assert MappingRefusal(mappings[i]) == None && MappingRefusal(mappings[j]) == None;
    assert out.prefix == "" ==> out.Produced() == out.topic;
    forall topic | GoesRound(out, inbound, topic) ensures !ValidFilter(out.Produced()) && LoopsBack(out, inbound) {
      if ValidFilter(out.Produced()) { NeverReimported(awsIot, broker, mappings, out, inbound, topic); }
      ReimportLoops(out, inbound, topic);
    }
    if !ValidFilter(out.Produced()) && LoopsBack(out, inbound) && Utf8.Size(out.prefix) <= 64000 {
      var topic := LoopReimports(out, inbound);
    }
  }
}
