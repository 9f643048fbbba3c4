/** MQTT topics and topic filters (section 4.7 of MQTT 3.1.1) and the bridge mappings built on them. */
module Topics {
  import opened Common
  import opened Text
  import Utf8

  predicate ValidTopic(topic: string) {
    0 < Utf8.Size(topic) <= 65535 && '+' !in topic && '#' !in topic && '\0' !in topic
  }

  function Levels(s: string): (levels: seq<string>)
    ensures levels != []
  {
    Split(s, '/')
  }

  predicate ValidLevel(level: string, last: bool) {
    && ('#' in level ==> level == "#" && last)
    && ('+' in level ==> level == "+")
  }

  predicate ValidFilter(filter: string) {
    && filter != "" && '\0' !in filter && Utf8.Size(filter) <= 65535
    && FilterLevels(Levels(filter))
  }

  predicate FilterLevels(levels: seq<string>) {
    forall i :: 0 <= i < |levels| ==> ValidLevel(levels[i], i == |levels| - 1)
  }

  /** The loop over the filter's levels. */
  predicate LevelsMatch(filter: seq<string>, topic: seq<string>) {
    if filter == [] then topic == []
    else if filter[0] == "#" then true
    else topic != [] && (filter[0] == "+" || filter[0] == topic[0]) && LevelsMatch(filter[1..], topic[1..])
  }

  /** Wildcards never reach into topics that start with `$`. */
  predicate Shielded(filter: string, topic: string) {
    topic != [] && filter != [] && topic[0] == '$' && filter[0] in "+#"
  }

  /** None where the source raises: the filter or the topic is not one. */
  function FilterMatches(filter: string, topic: string): Option<bool> {
    if !ValidFilter(filter) || !ValidTopic(topic) then None
    else Some(!Shielded(filter, topic) && LevelsMatch(Levels(filter), Levels(topic)))
  }

  /** Whether the two level lists agree at every index up to a `#` or to their common end. */
  predicate LevelsOverlap(x: seq<string>, y: seq<string>)
    decreases |x| + |y|
  {
    if x == [] && y == [] then true
    else if (x != [] && x[0] == "#") || (y != [] && y[0] == "#") then true
    else if x == [] || y == [] then false
    else (x[0] == "+" || y[0] == "+" || x[0] == y[0]) && LevelsOverlap(x[1..], y[1..])
  }

  predicate FiltersOverlap(a: string, b: string) {
    LevelsOverlap(Levels(a), Levels(b))
  }

  // --- What matching means ---------------------------------------------------------

  /** Section 4.7 of MQTT 3.1.1 read off directly: `+` stands for one level, a final `#`
      for the parent and any number of levels below it. */
  ghost predicate Covers(filter: seq<string>, topic: seq<string>) {
    var n := |filter|;
    if n > 0 && filter[n - 1] == "#" then
      |topic| >= n - 1 && forall i :: 0 <= i < n - 1 ==> filter[i] == "+" || filter[i] == topic[i]
    else
      |topic| == n && forall i :: 0 <= i < n ==> filter[i] == "+" || filter[i] == topic[i]
  }

  lemma {:induction false} MatchIsCover(filter: seq<string>, topic: seq<string>)
    requires forall i :: 0 <= i < |filter| - 1 ==> filter[i] != "#"
    ensures LevelsMatch(filter, topic) <==> Covers(filter, topic)
  {
    if filter != [] && filter[0] != "#" && topic != [] {
      MatchIsCover(filter[1..], topic[1..]);
      var n, f, t := |filter|, filter[1..], topic[1..];
      assert n > 1 ==> f[n - 2] == filter[n - 1];
      assert forall i :: 0 <= i < |f| ==> f[i] == filter[i + 1];
      assert forall i :: 0 <= i < |t| ==> t[i] == topic[i + 1];
      if Covers(filter, topic) {
        assert filter[0] == "+" || filter[0] == topic[0];
      }
      if Covers(f, t) && (filter[0] == "+" || filter[0] == topic[0]) {
        forall i | 0 <= i < n && filter[i] != "#" ensures i < |topic| && (filter[i] == "+" || filter[i] == topic[i]) {
          if i > 0 { assert f[i - 1] == filter[i]; }
        }
      }
    }
  }

  lemma FilterMatchesMeaning(filter: string, topic: string)
    requires ValidFilter(filter) && ValidTopic(topic)
    ensures FilterMatches(filter, topic) == Some(!Shielded(filter, topic) && Covers(Levels(filter), Levels(topic)))
  {
    var levels := Levels(filter);
    forall i | 0 <= i < |levels| - 1 ensures levels[i] != "#" {
      assert ValidLevel(levels[i], false);
    }
    MatchIsCover(levels, Levels(topic));
  }

  // --- Overlap ---------------------------------------------------------------------

  lemma {:induction false} LevelsOverlapComplete(x: seq<string>, y: seq<string>, topic: seq<string>)
    requires LevelsMatch(x, topic) && LevelsMatch(y, topic)
    ensures LevelsOverlap(x, y)
    decreases |x|
  {
    if x != [] && y != [] && x[0] != "#" && y[0] != "#" {
      LevelsOverlapComplete(x[1..], y[1..], topic[1..]);
    }
  }

  /** Two filters that share a topic overlap. */
  lemma OverlapComplete(a: string, b: string, topic: string)
    requires FilterMatches(a, topic) == Some(true) && FilterMatches(b, topic) == Some(true)
    ensures FiltersOverlap(a, b)
  {
    LevelsOverlapComplete(Levels(a), Levels(b), Levels(topic));
  }

  predicate PlainLevel(level: string) { '+' !in level && '#' !in level }

  predicate PlainLevels(levels: seq<string>) {
    forall i :: 0 <= i < |levels| ==> PlainLevel(levels[i])
  }

  /** A list of levels both filters match, where the overlap test says there is one. */
  function Witness(x: seq<string>, y: seq<string>): (w: seq<string>)
    decreases |x| + |y|
  {
    if x != [] && x[0] == "#" then Concrete(y)
    else if y != [] && y[0] == "#" then Concrete(x)
    else if x == [] || y == [] then []
    else [if x[0] != "+" then x[0] else if y[0] != "+" then y[0] else "x"] + Witness(x[1..], y[1..])
  }

  /** Levels matching one filter, its wildcards filled in. */
  function Concrete(x: seq<string>): seq<string> {
    if x == [] then [] else if x[0] == "#" then ["x"] else [if x[0] == "+" then "x" else x[0]] + Concrete(x[1..])
  }

  lemma {:induction false} ConcreteMatches(x: seq<string>)
    requires FilterLevels(x)
    ensures LevelsMatch(x, Concrete(x)) && PlainLevels(Concrete(x))
  {
    if x != [] && x[0] != "#" {
      TailLevels(x);
      ConcreteMatches(x[1..]);
      assert ValidLevel(x[0], |x| == 1);
      assert Concrete(x)[1..] == Concrete(x[1..]);
    }
  }

  lemma TailLevels(x: seq<string>)
    requires x != [] && FilterLevels(x)
    ensures FilterLevels(x[1..])
  {
    forall i | 0 <= i < |x[1..]| ensures ValidLevel(x[1..][i], i == |x[1..]| - 1) {
      assert ValidLevel(x[i + 1], i + 1 == |x| - 1);
    }
  }

  /** The test is exact on levels: it holds just when some wildcard-free level list matches both. */
  lemma {:induction false} OverlapExact(x: seq<string>, y: seq<string>)
    requires FilterLevels(x) && FilterLevels(y)
    ensures LevelsOverlap(x, y) <==> exists t :: PlainLevels(t) && LevelsMatch(x, t) && LevelsMatch(y, t)
  {
    if LevelsOverlap(x, y) {
      WitnessMatches(x, y);
      assert PlainLevels(Witness(x, y));
    }
    if t :| PlainLevels(t) && LevelsMatch(x, t) && LevelsMatch(y, t) {
      LevelsOverlapComplete(x, y, t);
    }
  }

  lemma {:induction false} WitnessMatches(x: seq<string>, y: seq<string>)
    requires FilterLevels(x) && FilterLevels(y) && LevelsOverlap(x, y)
    ensures var w := Witness(x, y); PlainLevels(w) && LevelsMatch(x, w) && LevelsMatch(y, w)
    decreases |x|
  {
    if x != [] && x[0] == "#" {
      ConcreteMatches(y);
    } else if y != [] && y[0] == "#" {
      ConcreteMatches(x);
    } else if x != [] && y != [] {
      TailLevels(x);
      TailLevels(y);
      WitnessMatches(x[1..], y[1..]);
      assert ValidLevel(x[0], |x| == 1) && ValidLevel(y[0], |y| == 1);
      assert Witness(x, y)[1..] == Witness(x[1..], y[1..]);
    }
  }

  // --- Bridge mappings ---------------------------------------------------------------

  datatype Link = Pubsub | LocalMqtt | IotCore

  datatype Mapping = Mapping(source: Link, target: Link, topic: string, prefix: string)
  {
    function Produced(): string { prefix + topic }
  }

  datatype Refusal = NeedBroker | MappingCount | NeedAwsIot | MustDiffer | ThroughPubsub
    | InvalidFilter | ReachesShadows | ExceedsLimits | BridgeLoop

  predicate HasPrefix(s: string, p: string) { |p| <= |s| && s[..|p|] == p }

  predicate ReachesAwsShadows(filter: string) {
    HasPrefix(filter, "$") && FiltersOverlap(filter, "$aws/things/+/shadow/#")
  }

  function Slashes(s: string): nat {
    if s == [] then 0 else (if s[0] == '/' then 1 else 0) + Slashes(s[1..])
  }

  /** At most 256 bytes and 7 slashes, not counting a leading `$aws/rules/<rule>/`. */
  predicate WithinLimits(topic: string) {
    var basic := "$aws/rules/";
    var t := if HasPrefix(topic, basic) && '/' in topic[|basic|..]
             then var rest := topic[|basic|..]; rest[Find(rest, "/", 0) + 1..]
             else topic;
    Utf8.Size(t) <= 256 && Slashes(t) <= 7
  }

  predicate Uses(mappings: seq<Mapping>, link: Link) {
    exists i :: 0 <= i < |mappings| && (mappings[i].source == link || mappings[i].target == link)
  }

  /** The checks on one mapping, in the source's order. */
  function MappingRefusal(m: Mapping): Option<Refusal> {
    if m.source == m.target then Some(MustDiffer)
    else if m.source != Pubsub && m.target != Pubsub then Some(ThroughPubsub)
    else if !ValidFilter(m.topic) || Utf8.Size(m.topic) > 256 then Some(InvalidFilter)
    else if m.source == IotCore || m.target == IotCore then
      var cloudSide := if m.source == IotCore then m.topic else m.Produced();
      if ReachesAwsShadows(cloudSide) || ReachesAwsShadows(m.Produced()) then Some(ReachesShadows)
      else if !WithinLimits(cloudSide) then Some(ExceedsLimits)
      else None
    else None
  }

  function FirstRefusal(mappings: seq<Mapping>): (r: Option<Refusal>)
    ensures r == None <==> forall i :: 0 <= i < |mappings| ==> MappingRefusal(mappings[i]) == None
  {
    if mappings == [] then None
    else
      var first := MappingRefusal(mappings[0]);
      if first != None then first
      else
        var rest := FirstRefusal(mappings[1..]);
        assert rest == None ==> forall i :: 1 <= i < |mappings| ==> mappings[i] == mappings[1..][i - 1];
        rest
  }

  predicate Loops(out: Mapping, inbound: Mapping) {
    && out.source == Pubsub && inbound.source == out.target
    && ValidFilter(out.Produced()) && FiltersOverlap(out.Produced(), inbound.topic)
  }

  /** None when the mappings are accepted, else why not. */
  function MappingError(awsIot: bool, broker: bool, mappings: seq<Mapping>): Option<Refusal> {
    if !broker && Uses(mappings, LocalMqtt) then Some(NeedBroker)
    else if (!awsIot && mappings == []) || |mappings| > 64 then Some(MappingCount)
    else if !awsIot && Uses(mappings, IotCore) then Some(NeedAwsIot)
    else if FirstRefusal(mappings) != None then FirstRefusal(mappings)
    else if exists i, j :: 0 <= i < |mappings| && 0 <= j < |mappings| && Loops(mappings[i], mappings[j]) then
        Some(BridgeLoop)
    else None
  }

  lemma {:induction false} PlainSplit(s: string)
    requires PlainLevel(s)
    ensures PlainLevels(Levels(s))
  {
    if s != [] {
      PlainSplit(s[1..]);
      var rest := Levels(s[1..]);
      assert PlainLevel(rest[0]);
    }
  }

  /** Putting the same wildcard-free text before a filter and before a topic keeps the match. */
  lemma {:induction false} MeetMatches(p: seq<string>, f: seq<string>, t: seq<string>)
    requires p != [] && f != [] && t != [] && LevelsMatch(f, t)
    requires PlainLevels(p)
    requires FilterLevels(Meet(p, f))
    ensures LevelsMatch(Meet(p, f), Meet(p, t))
  {
    var m := Meet(p, f);
    if |p| == 1 {
      assert ValidLevel(m[0], |m| == 1);
      if f[0] == "#" || f[0] == "+" {
        assert f[0][0] in m[0];
        assert p[0] + f[0] == f[0];
      }
      assert m[1..] == f[1..] && Meet(p, t)[1..] == t[1..];
    } else {
      TailLevels(m);
      assert PlainLevel(p[0]) && PlainLevels(p[1..]);
      assert m[1..] == Meet(p[1..], f);
      MeetMatches(p[1..], f, t);
    }
  }

  lemma PrefixKeepsMatch(prefix: string, filter: string, topic: string)
    requires FilterMatches(filter, topic) == Some(true)
    requires ValidFilter(prefix + filter) && ValidTopic(prefix + topic)
    ensures FilterMatches(prefix + filter, prefix + topic) == Some(true)
  {
    SplitConcat(prefix, filter, '/');
    SplitConcat(prefix, topic, '/');
    assert forall c :: c in prefix ==> c in prefix + topic;
    PlainSplit(prefix);
    MeetMatches(Levels(prefix), Levels(filter), Levels(topic));
    if prefix == [] {
      assert prefix + filter == filter && prefix + topic == topic;
    } else {
      assert (prefix + filter)[0] == prefix[0] && prefix[0] in prefix + topic;
    }
  }

  /** A message sent out over a link under an accepted mapping is never taken back in from that
      link: not by any accepted mapping, on any topic, whenever prefix and filter form a filter. */
  lemma NeverReimported(awsIot: bool, broker: bool, mappings: seq<Mapping>, out: Mapping, inbound: Mapping,
                        topic: string)
    requires MappingError(awsIot, broker, mappings) == None && out in mappings && inbound in mappings
    requires out.source == Pubsub && inbound.source == out.target
    requires ValidFilter(out.Produced()) && FilterMatches(out.topic, topic) == Some(true)
    requires ValidTopic(out.prefix + topic)
    ensures FilterMatches(inbound.topic, out.prefix + topic) == Some(false)
  {
    PrefixKeepsMatch(out.prefix, out.topic, topic);
    if FilterMatches(inbound.topic, out.prefix + topic) == Some(true) {
      OverlapComplete(out.Produced(), inbound.topic, out.prefix + topic);
    }
    var i :| 0 <= i < |mappings| && mappings[i] == out;
    var j :| 0 <= j < |mappings| && mappings[j] == inbound;
    assert MappingRefusal(mappings[j]) == None && !Loops(mappings[i], mappings[j]);
  }

  /** The exclusion is needed: with a prefix that runs into a wildcard level the loop test is
      skipped, and the accepted pair re-imports what it sends. */
  lemma ReimportWithoutValidProduct()
    ensures var out := Mapping(Pubsub, LocalMqtt, "+", "a");
            var inbound := Mapping(LocalMqtt, Pubsub, "ax", "");
            && MappingError(false, true, [out, inbound]) == None
            && !ValidFilter(out.Produced())
            && FilterMatches(out.topic, "x") == Some(true)
            && FilterMatches(inbound.topic, out.prefix + "x") == Some(true)
  {
    var out := Mapping(Pubsub, LocalMqtt, "+", "a");
    var inbound := Mapping(LocalMqtt, Pubsub, "ax", "");
    assert out.Produced() == "a+" && out.prefix + "x" == "ax";
    assert !ValidFilter("a+") by {
      OneLevel("a+");
      assert !ValidLevel(Levels("a+")[0], true);
    }
    ShortFilter("+");
    ShortFilter("ax");
    ShortFilter("x");
    assert LevelsMatch(["+"], ["x"]) && LevelsMatch(["ax"], ["ax"]);
    assert MappingRefusal(out) == None && MappingRefusal(inbound) == None;
  }

  lemma ShortFilter(s: string)
    requires 0 < |s| <= 2 && '/' !in s && '\0' !in s && '#' !in s && ('+' in s ==> s == "+")
    ensures ValidFilter(s) && Levels(s) == [s] && Utf8.Size(s) <= 256
    ensures '+' !in s ==> ValidTopic(s)
  {
    OneLevel(s);
    SmallSize(s);
    assert ValidLevel(s, true);
  }

  lemma {:induction false} OneLevel(s: string)
    requires '/' !in s
    ensures Levels(s) == [s]
  {
    if s != [] {
      OneLevel(s[1..]);
      assert s == [s[0]] + s[1..];
    }
  }

  lemma {:induction false} SmallSize(s: string)
    ensures |s| <= Utf8.Size(s) <= 4 * |s|
  {
    if s != [] { SmallSize(s[1..]); }
  }
}
