/** Persistent QoS 1 sessions: what happens to every message routed to a client over all its
    connections. Messages carry the number under which they were routed, so that two equal
    publications stay apart. */
module Sessions {
  import opened Common

  const MAX_ID := 65535

  datatype Message = Message(tag: nat, topic: string, payload: seq<byte>)

  /** A PUBLISH sent on the current connection; `dup` on a retransmission. */
  datatype Sent = Sent(id: nat, message: Message, dup: bool)

  datatype State = State(
    unacked: map<nat, Message>,  // packet id -> message
    queued: seq<Message>,        // waiting for a connection
    nextId: nat,
    online: bool,                // there is a connection and it is not closed
    outbox: seq<Sent>,           // sent on the current connection, oldest first
    maxId: nat)                  // 65535 in MQTT
  {
    ghost predicate Valid() {
      && 1 <= nextId <= maxId
      && forall id :: id in unacked ==> 1 <= id <= maxId
    }
  }

  function Fresh(maxId: nat): State { State(map[], [], 1, false, [], maxId) }

  function AfterDeliver(s: State, m: Message): State {
    if !s.online then s.(queued := s.queued + [m])
    else
      s.(nextId := if s.nextId == s.maxId then 1 else s.nextId + 1,
         unacked := s.unacked[s.nextId := m],
         outbox := s.outbox + [Sent(s.nextId, m, false)])
  }

  function AfterDeliverAll(s: State, ms: seq<Message>): State
    decreases |ms|
  {
    if ms == [] then s else AfterDeliverAll(AfterDeliver(s, ms[0]), ms[1..])
  }

  function AfterPuback(s: State, id: nat): State { s.(unacked := s.unacked - {id}) }

  function AfterLost(s: State): State { s.(online := false, outbox := []) }

  /** The unacknowledged messages with packet ids below `n`, in the order of their ids. */
  function Resent(unacked: map<nat, Message>, n: nat): seq<Sent> {
    if n == 0 then []
    else Resent(unacked, n - 1) + if n - 1 in unacked then [Sent(n - 1, unacked[n - 1], true)] else []
  }

  /** A non-clean CONNECT, also one that takes the session over: resend, then empty the queue. */
  function AfterConnect(s: State): State {
    AfterDeliverAll(s.(online := true, outbox := Resent(s.unacked, s.maxId + 1), queued := []), s.queued)
  }

  // --- The session object ---------------------------------------------------------------

  class Session {
    var unacked: map<nat, Message>
    var queued: seq<Message>
    var nextId: nat
    var online: bool
    var outbox: seq<Sent>

    ghost function Now(): State
      reads this
    {
      State(unacked, queued, nextId, online, outbox, MAX_ID)
    }

    constructor ()
      ensures Now() == Fresh(MAX_ID)
    {
      unacked, queued, nextId, online, outbox := map[], [], 1, false, [];
    }

    method Deliver(m: Message)
      modifies this
      ensures Now() == AfterDeliver(old(Now()), m)
    {
      if !online {
        queued := queued + [m];
        return;
      }
      var id := nextId;
      nextId := if id == MAX_ID then 1 else id + 1;
      unacked := unacked[id := m];
      outbox := outbox + [Sent(id, m, false)];
    }

    method Puback(id: nat)
      modifies this
      ensures Now() == AfterPuback(old(Now()), id)
    {
      unacked := unacked - {id};
    }

    method Lost()
      modifies this
      ensures Now() == AfterLost(old(Now()))
    {
      online, outbox := false, [];
    }

    method Connect()
      modifies this
      ensures Now() == AfterConnect(old(Now()))
    {
      online, outbox := true, [];
      var id := 0;
      while id <= MAX_ID
        invariant id <= MAX_ID + 1 && outbox == Resent(unacked, id)
        invariant Now() == old(Now()).(online := true, outbox := outbox)
      {
        if id in unacked { outbox := outbox + [Sent(id, unacked[id], true)]; }
        id := id + 1;
      }
      var pending := queued;
      queued := [];
      ghost var goal := AfterDeliverAll(Now(), pending);
      while pending != []
        invariant goal == AfterDeliverAll(Now(), pending)
        decreases |pending|
      {
        Deliver(pending[0]);
        pending := pending[1..];
      }
    }
  }

  // --- Runs and the ledger ------------------------------------------------------------------

  datatype Event = Route(topic: string, payload: seq<byte>) | Ack(id: nat) | Drop | Reconnect

  /** The session with what has ever been routed to it and which of those were acknowledged. */
  datatype World = World(session: State, routed: seq<Message>, acked: set<nat>)

  function Begin(maxId: nat): World { World(Fresh(maxId), [], {}) }

  function Step(w: World, e: Event): World {
    match e
    case Route(topic, payload) =>
      var m := Message(|w.routed|, topic, payload);
      w.(session := AfterDeliver(w.session, m), routed := w.routed + [m])
    case Ack(id) =>
      w.(session := AfterPuback(w.session, id),
         acked := if id in w.session.unacked then w.acked + {w.session.unacked[id].tag} else w.acked)
    case Drop => w.(session := AfterLost(w.session))
    case Reconnect => w.(session := AfterConnect(w.session))
  }

  function Run(w: World, events: seq<Event>): World
    decreases |events|
  {
    if events == [] then w else Run(Step(w, events[0]), events[1..])
  }

  ghost predicate InFlight(s: State, t: nat) { exists id :: id in s.unacked && s.unacked[id].tag == t }

  ghost predicate Queued(s: State, t: nat) { exists i :: 0 <= i < |s.queued| && s.queued[i].tag == t }

  /** Distinct messages in distinct places, and none both in flight and queued. */
  ghost predicate Apart(s: State) {
    && (forall a, b :: a in s.unacked && b in s.unacked && a != b ==> s.unacked[a].tag != s.unacked[b].tag)
    && (forall i, j :: 0 <= i < j < |s.queued| ==> s.queued[i].tag != s.queued[j].tag)
    && (forall a, i :: a in s.unacked && 0 <= i < |s.queued| ==> s.unacked[a].tag != s.queued[i].tag)
  }

  /** Every message in flight has gone out on the current connection. */
  ghost predicate Transmitted(s: State) {
    s.online ==> forall id :: id in s.unacked ==>
      Sent(id, s.unacked[id], true) in s.outbox || Sent(id, s.unacked[id], false) in s.outbox
  }

  /** The message is one that was routed, unaltered, and it is not acknowledged. */
  ghost predicate Open(w: World, m: Message) {
    m.tag < |w.routed| && w.routed[m.tag] == m && m.tag !in w.acked
  }

  /** What the session holds is what was routed and is still open, each message once. */
  ghost predicate Holding(w: World) {
    var s := w.session;
    && s.Valid() && Apart(s) && Transmitted(s)
    && (forall id :: id in s.unacked ==> Open(w, s.unacked[id]))
    && (forall i :: 0 <= i < |s.queued| ==> Open(w, s.queued[i]))
    && (forall t :: t in w.acked ==> t < |w.routed|)
  }

  /** Holding, and nothing waits while there is a connection. */
  ghost predicate Once(w: World) {
    Holding(w) && (w.session.online ==> w.session.queued == [])
  }

  ghost predicate Somewhere(w: World, t: nat) {
    t in w.acked || InFlight(w.session, t) || Queued(w.session, t)
  }

  /** Nothing is missing: each routed message is acknowledged, in flight or queued. */
  ghost predicate Accounted(w: World) {
    forall t :: 0 <= t < |w.routed| ==> Somewhere(w, t)
  }

  /** Whether handing these messages over uses a packet id that is still unacknowledged. */
  ghost predicate Reuses(s: State, ms: seq<Message>)
    decreases |ms|
  {
    ms != [] && ((s.online && s.nextId in s.unacked) || Reuses(AfterDeliver(s, ms[0]), ms[1..]))
  }

  ghost predicate StepReuses(w: World, e: Event) {
    match e
    case Route(_, _) => w.session.online && w.session.nextId in w.session.unacked
    case Reconnect => Reuses(Resuming(w.session), w.session.queued)
    case _ => false
  }

  ghost predicate RunReuses(w: World, events: seq<Event>)
    decreases |events|
  {
    events != [] && (StepReuses(w, events[0]) || RunReuses(Step(w, events[0]), events[1..]))
  }

  // --- Handing over one message ---------------------------------------------------------------

  function WithQueue(w: World, s: State, ms: seq<Message>): World { w.(session := s.(queued := ms)) }

  /** Sending the head of the queue keeps every message apart; the only one that can go missing
      is the one whose packet id is taken over. */
  lemma MoveHead(w: World, s: State, ms: seq<Message>)
    requires s.online && ms != [] && Holding(WithQueue(w, s, ms))
    ensures Holding(WithQueue(w, AfterDeliver(s, ms[0]), ms[1..]))
  {
    var a, b := s.(queued := ms), AfterDeliver(s, ms[0]).(queued := ms[1..]);
    assert b.unacked == a.unacked[s.nextId := ms[0]];
    assert forall i :: 0 <= i < |ms[1..]| ==> ms[1..][i] == ms[i + 1];
    assert Open(WithQueue(w, s, ms), ms[0]);
    MoveApart(s, ms);
    assert Sent(s.nextId, ms[0], false) in b.outbox;
  }

  lemma MoveApart(s: State, ms: seq<Message>)
    requires ms != [] && Apart(s.(queued := ms))
    ensures Apart(s.(unacked := s.unacked[s.nextId := ms[0]], queued := ms[1..]))
  {
    var q := ms[1..];
    assert forall i :: 0 <= i < |q| ==> q[i] == ms[i + 1];
  }

  lemma MoveSomewhere(w: World, s: State, ms: seq<Message>, t: nat)
    requires s.online && ms != [] && Holding(WithQueue(w, s, ms))
    ensures var a, b := WithQueue(w, s, ms), WithQueue(w, AfterDeliver(s, ms[0]), ms[1..]);
            Somewhere(b, t) <==> Somewhere(a, t) && !(s.nextId in s.unacked && s.unacked[s.nextId].tag == t)
  {
    var a, b := WithQueue(w, s, ms), WithQueue(w, AfterDeliver(s, ms[0]), ms[1..]);
    var ua, ub, q := s.unacked, b.session.unacked, ms[1..];
    assert ub == ua[s.nextId := ms[0]];
    assert forall i :: 0 <= i < |q| ==> q[i] == ms[i + 1];
    if InFlight(a.session, t) {
      var id :| id in ua && ua[id].tag == t;
      if id != s.nextId { assert id in ub && ub[id].tag == t; }
    }
    if Queued(a.session, t) {
      var i :| 0 <= i < |ms| && ms[i].tag == t;
      if i == 0 { assert s.nextId in ub && ub[s.nextId].tag == t; } else { assert q[i - 1].tag == t; }
    }
    if InFlight(b.session, t) {
      var id :| id in ub && ub[id].tag == t;
      if id == s.nextId { assert ms[0].tag == t; } else { assert id in ua && ua[id].tag == t; }
    }
    if Queued(b.session, t) {
      var i :| 0 <= i < |q| && q[i].tag == t;
      assert ms[i + 1].tag == t;
    }
  }

  lemma MoveAccounted(w: World, s: State, ms: seq<Message>)
    requires s.online && ms != [] && Holding(WithQueue(w, s, ms))
    ensures Accounted(WithQueue(w, AfterDeliver(s, ms[0]), ms[1..])) <==>
              Accounted(WithQueue(w, s, ms)) && s.nextId !in s.unacked
  {
    var a, b := WithQueue(w, s, ms), WithQueue(w, AfterDeliver(s, ms[0]), ms[1..]);
    forall t: nat ensures Somewhere(b, t) <==>
        Somewhere(a, t) && !(s.nextId in s.unacked && s.unacked[s.nextId].tag == t) {
      MoveSomewhere(w, s, ms, t);
    }
    if s.nextId in s.unacked {
      var t := s.unacked[s.nextId].tag;
      assert Open(a, s.unacked[s.nextId]) && !Somewhere(b, t);
    }
  }

  lemma {:induction false} Flush(w: World, s: State, ms: seq<Message>)
    requires s.online && s.queued == [] && Holding(WithQueue(w, s, ms))
    ensures var e := w.(session := AfterDeliverAll(s, ms));
            && Once(e) && e.session.online && s.outbox <= e.session.outbox
            && (Accounted(e) <==> Accounted(WithQueue(w, s, ms)) && !Reuses(s, ms))
    decreases |ms|
  {
    if ms == [] {
      assert s.(queued := []) == s;
    } else {
      MoveHead(w, s, ms);
      MoveAccounted(w, s, ms);
      Flush(w, AfterDeliver(s, ms[0]), ms[1..]);
    }
  }

  // --- Each event -------------------------------------------------------------------------------

  lemma {:induction false} ResentMeaning(unacked: map<nat, Message>, n: nat, id: nat)
    ensures forall x :: x in Resent(unacked, n) ==> x.id < n && x.id in unacked && x == Sent(x.id, unacked[x.id], true)
    ensures id in unacked && id < n ==> Sent(id, unacked[id], true) in Resent(unacked, n)
  {
    if n > 0 {
      ResentMeaning(unacked, n - 1, id);
    }
  }

  lemma EnqueueKeeps(w: World, m: Message)
    requires Holding(w) && m.tag == |w.routed|
    ensures var a := WithQueue(w.(routed := w.routed + [m]), w.session, w.session.queued + [m]);
            Holding(a) && (Accounted(a) <==> Accounted(w))
  {
    var s, q := w.session, w.session.queued + [m];
    var a := WithQueue(w.(routed := w.routed + [m]), s, q);
    forall x | Open(w, x) ensures Open(a, x) && x.tag != m.tag {}
    assert q[|q| - 1] == m && forall i :: 0 <= i < |s.queued| ==> q[i] == s.queued[i];
    forall t: nat | t < |w.routed| ensures Somewhere(a, t) <==> Somewhere(w, t) {
      if Queued(s, t) { var i :| 0 <= i < |s.queued| && s.queued[i].tag == t; assert q[i].tag == t; }
    }
    assert Queued(a.session, m.tag);
  }

  lemma AckKeeps(w: World, id: nat)
    requires Once(w)
    ensures Once(Step(w, Ack(id))) && (Accounted(Step(w, Ack(id))) <==> Accounted(w))
  {
    var e := Step(w, Ack(id));
    var ua, ue := w.session.unacked, e.session.unacked;
    assert forall k :: k in ue <==> k in ua && k != id;
    forall t: nat ensures Somewhere(e, t) <==> Somewhere(w, t) {
      if InFlight(w.session, t) {
        var k :| k in ua && ua[k].tag == t;
        if k != id { assert k in ue && ue[k].tag == t; }
      }
    }
  }

  lemma RouteKeeps(w: World, topic: string, payload: seq<byte>)
    requires Once(w)
    ensures var e := Step(w, Route(topic, payload));
            Once(e) && (Accounted(e) <==> Accounted(w) && !StepReuses(w, Route(topic, payload)))
  {
    var m, s := Message(|w.routed|, topic, payload), w.session;
    var v := w.(routed := w.routed + [m]);
    EnqueueKeeps(w, m);
    if s.online {
      assert s.queued + [m] == [m] && s.(queued := []) == s;
      Flush(v, s, [m]);
      assert [m][1..] == [];
      assert AfterDeliverAll(s, [m]) == AfterDeliver(s, m);
      assert !Reuses(AfterDeliver(s, m), []);
    }
  }

  /** The session as a reconnect finds it: connected, retransmissions sent, queue still to send. */
  function Resuming(s: State): State {
    s.(online := true, outbox := Resent(s.unacked, s.maxId + 1), queued := [])
  }

  lemma ReconnectKeeps(w: World)
    requires Once(w)
    ensures var e := Step(w, Reconnect);
            && Once(e) && Resent(w.session.unacked, w.session.maxId + 1) <= e.session.outbox
            && (Accounted(e) <==> Accounted(w) && !StepReuses(w, Reconnect))
  {
    var s, r := w.session, Resuming(w.session);
    var a := WithQueue(w, r, s.queued);
    forall id | id in s.unacked ensures Sent(id, s.unacked[id], true) in r.outbox {
      ResentMeaning(s.unacked, s.maxId + 1, id);
    }
    forall x | Open(w, x) ensures Open(a, x) {}
    assert Holding(a);
    forall t: nat ensures Somewhere(a, t) <==> Somewhere(w, t) {}
    Flush(w, r, s.queued);
  }

  // --- All runs --------------------------------------------------------------------------------------

  lemma StepKeeps(w: World, e: Event)
    requires Once(w)
    ensures Once(Step(w, e))
    ensures Accounted(Step(w, e)) <==> Accounted(w) && !StepReuses(w, e)
  {
    match e
    case Route(topic, payload) => RouteKeeps(w, topic, payload);
    case Ack(id) => AckKeeps(w, id);
    case Drop =>
      forall t: nat ensures Somewhere(Step(w, e), t) <==> Somewhere(w, t) {}
    case Reconnect => ReconnectKeeps(w);
  }

  /** QoS 1 conservation, exactly: after any run nothing is in two places, and every routed
      message is acknowledged, in flight or queued if and only if no packet id was given out
      while still unacknowledged. */
  lemma {:induction false} Conservation(w: World, events: seq<Event>)
    requires Once(w) && Accounted(w)
    ensures Once(Run(w, events))
    ensures Accounted(Run(w, events)) <==> !RunReuses(w, events)
    decreases |events|
  {
    if events != [] {
      StepKeeps(w, events[0]);
      if StepReuses(w, events[0]) {
        StaysMissing(Step(w, events[0]), events[1..]);
      } else {
        Conservation(Step(w, events[0]), events[1..]);
      }
    }
  }

  /** A message once missing never turns up again. */
  lemma {:induction false} StaysMissing(w: World, events: seq<Event>)
    requires Once(w) && !Accounted(w)
    ensures Once(Run(w, events)) && !Accounted(Run(w, events))
    decreases |events|
  {
    if events != [] {
      StepKeeps(w, events[0]);
      StaysMissing(Step(w, events[0]), events[1..]);
    }
  }

  lemma FromTheStart(maxId: nat, events: seq<Event>)
    requires maxId >= 1
    ensures var w := Run(Begin(maxId), events); Once(w) && (Accounted(w) <==> !RunReuses(Begin(maxId), events))
  {
    Conservation(Begin(maxId), events);
  }

  /** A reconnect after any run resends exactly the messages in flight, in packet id order,
      before anything else. */
  lemma ReconnectResends(maxId: nat, events: seq<Event>, id: nat)
    requires maxId >= 1
    ensures var s := Run(Begin(maxId), events).session;
            var resent := Resent(s.unacked, s.maxId + 1);
            && resent <= AfterConnect(s).outbox
            && (forall x :: x in resent ==> x.id in s.unacked && x == Sent(x.id, s.unacked[x.id], true))
            && (id in s.unacked ==> Sent(id, s.unacked[id], true) in resent)
  {
    var w := Run(Begin(maxId), events);
    FromTheStart(maxId, events);
    ReconnectKeeps(w);
    ResentMeaning(w.session.unacked, w.session.maxId + 1, id);
  }

  lemma {:induction false} ResentInOrder(unacked: map<nat, Message>, n: nat)
    ensures forall i, j :: 0 <= i < j < |Resent(unacked, n)| ==> Resent(unacked, n)[i].id < Resent(unacked, n)[j].id
  {
    if n > 0 {
      ResentInOrder(unacked, n - 1);
      ResentMeaning(unacked, n - 1, 0);
    }
  }

  // --- The family that fails ----------------------------------------------------------------------------

  function Routes(n: nat): seq<Event> {
    if n == 0 then [] else [Route("t", [])] + Routes(n - 1)
  }

  /** A client that acknowledges nothing: once every packet id is out, the next message takes
      over the oldest one, and that message is gone. */
  lemma {:induction false} Fill(w: World, n: nat)
    requires w.session.online && w.session.Valid() && w.session.nextId + n == w.session.maxId + 1 && n >= 1
    requires forall id :: 1 <= id < w.session.nextId ==> id in w.session.unacked
    ensures RunReuses(w, Routes(n + 1))
    decreases n
  {
    var v := Step(w, Routes(n + 1)[0]);
    assert Routes(n + 1)[1..] == Routes(n);
    if n > 1 {
      Fill(v, n - 1);
    } else {
      assert v.session.nextId == 1 && 1 in v.session.unacked;
      assert StepReuses(v, Routes(1)[0]);
    }
  }

  lemma ReuseIsReachable(maxId: nat)
    requires maxId >= 1
    ensures !Accounted(Run(Begin(maxId), [Reconnect] + Routes(maxId + 1)))
  {
    var events := [Reconnect] + Routes(maxId + 1);
    assert events[1..] == Routes(maxId + 1);
    var w := Step(Begin(maxId), Reconnect);
    assert w.session.online && w.session.unacked == map[] && w.session.nextId == 1;
    Fill(w, maxId);
    FromTheStart(maxId, events);
  }
}
