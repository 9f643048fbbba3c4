/** The Firehose exporter: a checkpointed reader of a stream that is appended to and evicted
    from while it works, against a service that may accept any part of a batch. */
module Firehose {
  import opened Common
  import Streams

  const MAX_RECORD := 1000 * 1024
  const MAX_BATCH := 4 * 1024 * 1024
  const MAX_RECORDS := 500

  /** A message as the exporter sees it: a JSON payload with its line of bytes, or another kind. */
  datatype Payload = Line(data: seq<byte>) | Binary

  /** A stream at one instant: every message ever appended by number, and the oldest number still
      readable. Numbers may be left out where a crash dropped a reservation. */
  datatype Log = Log(content: map<nat, Payload>, oldest: nat, next: nat, corrupt: bool)
  {
    ghost predicate Valid() { forall s :: s in content ==> s < next }
  }

  /** Appending and evicting: what was assigned stays assigned, new numbers are beyond the old ones. */
  ghost predicate Evolves(a: Log, b: Log) {
    && a.oldest <= b.oldest && a.next <= b.next
    && (forall s :: s in a.content ==> s in b.content && b.content[s] == a.content[s])
    && (forall s :: s in b.content && s !in a.content ==> a.next <= s)
  }

  /** The least assigned number from `i` on. */
  function Least(log: Log, i: nat): (r: Option<nat>)
    ensures r.Some? ==> i <= r.value && r.value in log.content
    ensures forall s :: i <= s < log.next && s in log.content ==> r.Some? && r.value <= s
    decreases log.next - i
  {
    if i >= log.next then None else if i in log.content then Some(i) else Least(log, i + 1)
  }

  /** All numbers assigned from `lo` up to but not including `hi`, in order. */
  ghost function Assigned(log: Log, lo: nat, hi: nat): seq<nat> {
    if hi <= lo then [] else Assigned(log, lo, hi - 1) + (if hi - 1 in log.content then [hi - 1] else [])
  }

  lemma {:induction false} AssignedMeaning(log: Log, lo: nat, hi: nat, s: nat)
    ensures s in Assigned(log, lo, hi) <==> lo <= s < hi && s in log.content
  {
    if lo < hi { AssignedMeaning(log, lo, hi - 1, s); }
  }

  lemma {:induction false} AssignedRises(log: Log, lo: nat, hi: nat, i: nat, j: nat)
    requires i < j < |Assigned(log, lo, hi)|
    ensures Assigned(log, lo, hi)[i] < Assigned(log, lo, hi)[j]
  {
    var before := Assigned(log, lo, hi - 1);
    if j < |before| {
      AssignedRises(log, lo, hi - 1, i, j);
    } else {
      assert before[i] in before;
      AssignedMeaning(log, lo, hi - 1, before[i]);
    }
  }

  /** Reading on from `hi` to the next number found passes over nothing. */
  lemma {:induction false} AssignedNext(log: Log, lo: nat, hi: nat, s: nat)
    requires lo <= hi <= s && s in log.content && (forall x :: hi <= x < s ==> x !in log.content)
    ensures Assigned(log, lo, s + 1) == Assigned(log, lo, hi) + [s]
  {
    AssignedNone(log, lo, hi, s);
  }

  lemma {:induction false} AssignedNone(log: Log, lo: nat, hi: nat, s: nat)
    requires lo <= hi <= s && (forall x :: hi <= x < s ==> x !in log.content)
    ensures Assigned(log, lo, s) == Assigned(log, lo, hi)
    decreases s
  {
    if hi < s { AssignedNone(log, lo, hi, s - 1); }
  }

  // --- Collecting a batch ---------------------------------------------------------------------------

  datatype Error = Evicted | Corrupt | Unsupported | TooLarge | Transport | Ambiguous | NotExportable

  /** What has been collected: the records, their numbers and why collecting stopped early. */
  datatype Batch = Batch(records: seq<seq<byte>>, sequences: seq<nat>, pending: Option<Error>)

  function Bytes(records: seq<seq<byte>>): nat {
    if records == [] then 0 else Bytes(records[..|records| - 1]) + |records[|records| - 1]|
  }

  ghost predicate WithinLimits(records: seq<seq<byte>>) {
    && |records| <= MAX_RECORDS && Bytes(records) <= MAX_BATCH
    && forall r :: r in records ==> |r| <= MAX_RECORD
  }

  /** The records are the lines of the messages with these numbers. */
  ghost predicate Carries(records: seq<seq<byte>>, sequences: seq<nat>, log: Log) {
    && |records| == |sequences|
    && forall i :: 0 <= i < |records| ==> sequences[i] in log.content && log.content[sequences[i]] == Line(records[i])
  }

  /** A batch within the limits that holds the lines of all messages assigned from `lo` to `hi`. */
  ghost predicate Collected(b: Batch, lo: nat, hi: nat, log: Log) {
    WithinLimits(b.records) && Carries(b.records, b.sequences, log) && b.sequences == Assigned(log, lo, hi)
  }

  /** One round of the loop: the stream as it is described and, later, as it is read. */
  datatype Round = Round(fails: bool, described: Log, read: Log)

  ghost predicate Sound(r: Round, now: Log) {
    r.read.Valid() && Evolves(r.described, r.read) && Evolves(r.read, now)
  }

  /** Nothing from the cursor on is evicted and nothing is corrupt. */
  predicate Ready(log: Log, cursor: nat) { log.oldest <= cursor && !log.corrupt }

  /** The line of this message would take the batch past its bytes. */
  predicate NoRoom(log: Log, s: nat, size: nat) {
    s in log.content && log.content[s].Line? && size + |log.content[s].data| > MAX_BATCH
  }

  datatype Visit = Stop(reason: Option<Error>) | Take(sequence: nat, data: seq<byte>)

  /** What a round does for a cursor and the bytes collected so far. */
  function Look(r: Round, cursor: nat, size: nat): (v: Visit)
    ensures v.Take? ==> Least(r.read, cursor) == Some(v.sequence) && r.read.content[v.sequence] == Line(v.data)
    ensures v.Take? ==> |v.data| <= MAX_RECORD && size + |v.data| <= MAX_BATCH
    ensures v.Take? ==> Ready(r.described, cursor)
    ensures cursor < r.described.oldest || cursor < r.read.oldest ==> v.Stop? && v.reason.Some?
    ensures v == Stop(None) ==> Least(r.read, cursor).None? || NoRoom(r.read, Least(r.read, cursor).value, size)
    ensures v == Stop(None) && size == 0 ==> Least(r.read, cursor).None?
  {
    if r.fails then Stop(Some(Transport))
    else if r.described.corrupt then Stop(Some(Corrupt))
    else if cursor < r.described.oldest || cursor < r.read.oldest then Stop(Some(Evicted))
    else match Least(r.read, cursor)
      case None => Stop(None)
      case Some(s) =>
        match r.read.content[s]
        case Binary => Stop(Some(Unsupported))
        case Line(data) =>
          if |data| > MAX_RECORD then Stop(Some(TooLarge))
          else if size + |data| > MAX_BATCH then Stop(None)
          else Take(s, data)
  }

  /** A record taken where the stream then stood is the next assigned number of the stream now. */
  lemma TakeIsNext(r: Round, now: Log, lo: nat, cursor: nat, s: nat)
    requires Sound(r, now) && lo <= cursor && Least(r.read, cursor) == Some(s)
    ensures Assigned(now, lo, s + 1) == Assigned(now, lo, cursor) + [s] && now.content[s] == r.read.content[s]
  {
    assert s < r.read.next;
    AssignedNext(now, lo, cursor, s);
  }

  lemma TakeFits(records: seq<seq<byte>>, data: seq<byte>)
    requires WithinLimits(records) && |records| < MAX_RECORDS
    requires |data| <= MAX_RECORD && Bytes(records) + |data| <= MAX_BATCH
    ensures WithinLimits(records + [data])
  {
    assert (records + [data])[..|records|] == records;
  }

  lemma TakeKeeps(b: Batch, r: Round, now: Log, lo: nat, cursor: nat, s: nat, data: seq<byte>)
    requires Collected(b, lo, cursor, now) && lo <= cursor && Sound(r, now) && |b.records| < MAX_RECORDS
    requires Look(r, cursor, Bytes(b.records)) == Take(s, data)
    ensures Collected(b.(records := b.records + [data], sequences := b.sequences + [s]), lo, s + 1, now) && cursor <= s
  {
    TakeIsNext(r, now, lo, cursor, s);
    TakeFits(b.records, data);
  }

  /** Where the loop stands: what it has, and that its first round found the stream ready. */
  ghost predicate Collecting(b: Batch, lo: nat, cursor: nat, first: Log, now: Log) {
    && lo <= cursor && b.pending.None? && Collected(b, lo, cursor, now)
    && if b.records == [] then cursor == lo else Ready(first, lo)
  }

  lemma CollectNext(b: Batch, r: Round, first: Log, now: Log, lo: nat, cursor: nat, s: nat, data: seq<byte>)
    requires Collecting(b, lo, cursor, first, now) && Sound(r, now) && |b.records| < MAX_RECORDS
    requires b.records == [] ==> r.described == first
    requires Look(r, cursor, Bytes(b.records)) == Take(s, data)
    ensures Collecting(b.(records := b.records + [data], sequences := b.sequences + [s]), lo, s + 1, first, now)
  {
    TakeKeeps(b, r, now, lo, cursor, s, data);
  }

  // --- What the service answers ----------------------------------------------------------------------

  datatype Result = Success | Failure | Unclear

  /** The answer to a batch: a result per record and a failure count, or something else. */
  datatype Response = Results(results: seq<Result>, failed: int) | Garbled

  function Failures(results: seq<Result>): nat {
    if results == [] then 0 else (if results[0].Failure? then 1 else 0) + Failures(results[1..])
  }

  predicate Clear(response: Response, n: nat) {
    && response.Results? && |response.results| == n && Unclear !in response.results
    && response.failed == Failures(response.results)
  }

  /** How many records at the front were accepted. */
  function Prefix(results: seq<Result>): (n: nat)
    ensures n <= |results| && (n < |results| ==> results[n] != Success)
    ensures forall i :: 0 <= i < n ==> results[i] == Success
  {
    if results == [] || results[0] != Success then 0 else 1 + Prefix(results[1..])
  }

  /** The numbers the service acknowledged with a record id. */
  ghost function Acked(sequences: seq<nat>, response: Response): set<nat> {
    if response.Garbled? then {}
    else set i | 0 <= i < |sequences| && i < |response.results| && response.results[i] == Success :: sequences[i]
  }

  /** Where the checkpoint goes, if anywhere: over the accepted prefix of a clear answer. */
  function Advance(sequences: seq<nat>, response: Response): Option<nat> {
    if !Clear(response, |sequences|) then None
    else
      var n := Prefix(response.results);
      if n == 0 then None else Some(sequences[n - 1])
  }

  // --- The exporter ----------------------------------------------------------------------------------

  datatype Outcome = Idle | ExportedAll | Partial | Raised(error: Error)

  /** How a save ends: done, failed before the new file took the old one's place, or after. */
  datatype Save = Done | Lost | Renamed

  class Exporter {
    var checkpoint: int
    var file: int
    ghost var older: set<int>  // what a power loss may leave in the file

    constructor (found: int)
      requires found >= -1
      ensures checkpoint == file == found && older == {found}
    {
      checkpoint, file, older := found, found, {found};
    }

    /** Collect while the stream moves on, from one round to the next, to `now`. */
    method Collect(rounds: seq<Round>, ghost now: Log) returns (b: Batch, ghost hi: nat)
      requires checkpoint >= -1 && |rounds| == MAX_RECORDS
      requires forall i :: 0 <= i < |rounds| ==> Sound(rounds[i], now)
      ensures Collected(b, checkpoint + 1, hi, now)
      ensures b.records != [] ==> Ready(rounds[0].described, checkpoint + 1)
      ensures checkpoint + 1 < rounds[0].read.oldest ==> b.records == [] && b.pending.Some?
      ensures b.records == [] && b.pending.None? ==> Least(rounds[0].read, checkpoint + 1).None?
      ensures |b.records| < MAX_RECORDS && b.pending.None? ==>
                var now := rounds[|b.records|].read;
                Least(now, hi).None? || NoRoom(now, Least(now, hi).value, Bytes(b.records))
    {
      b := Batch([], [], None);
      ghost var first, lo: nat := rounds[0].described, checkpoint + 1;
      var cursor: nat := checkpoint + 1;
      while |b.records| < MAX_RECORDS
        invariant Collecting(b, lo, cursor, first, now)
        invariant b.records != [] ==> rounds[0].read.oldest <= lo
        decreases MAX_RECORDS - |b.records|
      {
        var r := rounds[|b.records|];
        match Look(r, cursor, Bytes(b.records)) {
          case Stop(reason) =>
            hi := cursor;
            b := b.(pending := reason);
            return;
          case Take(s, data) =>
            CollectNext(b, r, first, now, lo, cursor, s, data);
            b := b.(records := b.records + [data], sequences := b.sequences + [s]);
            cursor := s + 1;
        }
      }
      hi := cursor;
    }

    /** Write the new checkpoint to the file, then remember it. */
    method SaveCheckpoint(sequence: nat, save: Save)
      modifies this
      ensures file == if save.Lost? then old(file) else sequence
      ensures checkpoint == if save.Done? then sequence else old(checkpoint)
      ensures older == if save.Lost? then old(older) else if save.Renamed? then old(older) + {sequence} else {sequence}
    {
      if save.Lost? { return; }
      file, older := sequence, older + {sequence};
      if save.Renamed? { return; }
      checkpoint, older := sequence, {sequence};
    }

    /** Read the answer to a batch and save over its accepted prefix. */
    method Settle(b: Batch, response: Response, save: Save, ghost w: World) returns (outcome: Outcome)
      requires |b.records| == |b.sequences| && w.memory == checkpoint && w.file == file && w.older == older
      modifies this
      ensures w.(memory := checkpoint, file := file, older := older) ==
                AfterSave(w, Advance(b.sequences, response), save)
      ensures !outcome.Idle?
    {
      if !Clear(response, |b.records|) { return Raised(Ambiguous); }
      var n := Prefix(response.results);
      if n > 0 {
        SaveCheckpoint(b.sequences[n - 1], save);
        if !save.Done? { return Raised(Transport); }
      }
      if b.pending.Some? && response.failed == 0 { return Raised(b.pending.value); }
      outcome := if response.failed > 0 then Partial else ExportedAll;
    }

    /** One export: collect, put, and move the checkpoint over the accepted prefix only. It is one
        attempt of the runs below, from the stream as first described to the stream now. */
    method Export(first: Log, exportable: bool, rounds: seq<Round>, response: Response, save: Save,
                  ghost now: Log, ghost acked: set<nat>) returns (outcome: Outcome, b: Batch, ghost hi: nat)
      requires checkpoint >= -1 && |rounds| == MAX_RECORDS && now.Valid()
      requires forall i :: 0 <= i < |rounds| ==> Sound(rounds[i], now)
      modifies this
      ensures Collected(b, old(checkpoint) + 1, hi, now)
      ensures IsAttempt(World(rounds[0].described, old(checkpoint), old(file), old(older), acked),
                        Attempted(now, hi, response, save),
                        World(now, checkpoint, file, older, acked + Acked(b.sequences, response)))
      ensures old(checkpoint) + 1 < rounds[0].read.oldest ==> outcome.Raised? && b.sequences == []
      ensures outcome.Idle? ==> Least(rounds[0].read, old(checkpoint) + 1).None?
    {
      ghost var w := World(rounds[0].described, checkpoint, file, older, acked);
      b, hi := Batch([], [], None), 0;
      EvolvesOn(rounds[0].described, rounds[0].read, now);
      AttemptOf(w, now, b, hi, response, save);
      if !exportable { outcome := Raised(NotExportable); return; }
      if first.corrupt { outcome := Raised(Corrupt); return; }
      b, hi := Collect(rounds, now);
      AttemptOf(w, now, b, hi, response, save);
      if b.records == [] {
        outcome := if b.pending.Some? then Raised(b.pending.value) else Idle;
        return;
      }
      outcome := Settle(b, response, save, w.(log := now));
    }
  }

  // --- All runs ------------------------------------------------------------------------------------------

  /** The stream, the checkpoint in memory and in the file, the numbers a power loss may bring back
      because the directory was not synced since, and everything ever acknowledged. */
  datatype World = World(log: Log, memory: int, file: int, older: set<int>, acked: set<nat>)

  function AfterSave(w: World, checkpoint: Option<nat>, save: Save): World {
    if checkpoint.None? || save.Lost? then w
    else if save.Renamed? then w.(file := checkpoint.value, older := w.older + {checkpoint.value})
    else w.(file := checkpoint.value, memory := checkpoint.value, older := {checkpoint.value})
  }

  ghost function AfterAttempt(w: World, sequences: seq<nat>, response: Response, save: Save): World {
    AfterSave(w, Advance(sequences, response), save).(acked := w.acked + Acked(sequences, response))
  }

  /** The stream moves on; the process restarts from the file; the power fails and what is left of the
      file is read; or a batch is put, collected while the stream moves on. A crash during an attempt
      is one whose save was lost or only renamed, followed by a restart or a power loss. */
  datatype Event =
    | Moved(log: Log)
    | Restarted
    | PowerLost(left: int)
    | Attempted(log: Log, hi: nat, response: Response, save: Save)

  /** Numbers whose messages make a batch within the limits. */
  ghost predicate Puttable(log: Log, sequences: seq<nat>) {
    exists records :: WithinLimits(records) && Carries(records, sequences, log)
  }

  /** The stream only moves on, and an attempt puts something only if the stream was ready when it began. */
  ghost predicate Possible(w: World, e: Event)
    requires w.memory >= -1
  {
    match e
    case Moved(log) => Evolves(w.log, log) && log.Valid()
    case Restarted => true
    case PowerLost(left) => left in w.older
    case Attempted(log, hi, _, _) =>
      var sequences := Assigned(log, w.memory + 1, hi);
      && Evolves(w.log, log) && log.Valid()
      && (sequences == [] || (Ready(w.log, w.memory + 1) && Puttable(log, sequences)))
  }

  ghost function Step(w: World, e: Event): World
    requires w.memory >= -1
  {
    match e
    case Moved(log) => w.(log := log)
    case Restarted => w.(memory := w.file)
    case PowerLost(left) => w.(memory := left, file := left, older := {left})
    case Attempted(log, hi, response, save) =>
      AfterAttempt(w.(log := log), Assigned(log, w.memory + 1, hi), response, save)
  }

  ghost predicate IsAttempt(w: World, e: Event, v: World) {
    e.Attempted? && w.memory >= -1 && Possible(w, e) && v == Step(w, e)
  }

  lemma EvolvesOn(a: Log, b: Log, c: Log)
    requires Evolves(a, b) && Evolves(b, c)
    ensures Evolves(a, c)
  {}

  /** What is collected from a stream that was ready can be attempted, and what the exporter does is that attempt. */
  lemma AttemptOf(w: World, now: Log, b: Batch, hi: nat, response: Response, save: Save)
    requires w.memory >= -1 && Evolves(w.log, now) && now.Valid() && Collected(b, w.memory + 1, hi, now)
    requires b.records != [] ==> Ready(w.log, w.memory + 1)
    ensures Possible(w, Attempted(now, hi, response, save))
    ensures Step(w, Attempted(now, hi, response, save)) ==
            AfterSave(w.(log := now), Advance(b.sequences, response), save).(acked := w.acked + Acked(b.sequences,
                response))
  {
    assert WithinLimits(b.records);
  }

  /** Nothing assigned at or below the checkpoint is unacknowledged. */
  ghost predicate Safe(log: Log, checkpoint: int, acked: set<nat>) {
    -1 <= checkpoint < log.next && forall s :: s in log.content && s <= checkpoint ==> s in acked
  }

  ghost predicate Good(w: World) {
    && w.log.Valid() && w.memory <= w.file && w.file in w.older && Safe(w.log, w.memory, w.acked)
    && forall n :: n in w.older ==> Safe(w.log, n, w.acked)
  }

  /** No power loss can bring back less than the exporter remembers. */
  ghost predicate Ahead(w: World) { forall n :: n in w.older ==> w.memory <= n }

  /** Wherever a clear answer moves the checkpoint, everything passed over was acknowledged. */
  lemma AdvanceIsSafe(w: World, hi: nat, sequences: seq<nat>, response: Response)
    requires Good(w) && sequences == Assigned(w.log, w.memory + 1, hi) && Advance(sequences, response).Some?
    ensures w.memory < Advance(sequences, response).value
    ensures Safe(w.log, Advance(sequences, response).value, w.acked + Acked(sequences, response))
  {
    var n := Prefix(response.results);
    var last := sequences[n - 1];
    AssignedMeaning(w.log, w.memory + 1, hi, last);
    forall s: nat | s in w.log.content && w.memory < s <= last ensures s in Acked(sequences, response) {
      AssignedMeaning(w.log, w.memory + 1, hi, s);
      var i :| 0 <= i < |sequences| && sequences[i] == s;
      if n <= i { AssignedRises(w.log, w.memory + 1, hi, n - 1, i); }
      assert response.results[i] == Success;
    }
  }

  lemma MoveKeeps(w: World, log: Log)
    requires Good(w) && Evolves(w.log, log) && log.Valid()
    ensures Good(w.(log := log))
  {}

  lemma AttemptKeeps(w: World, sequences: seq<nat>, hi: nat, response: Response, save: Save, v: World)
    requires Good(w) && sequences == Assigned(w.log, w.memory + 1, hi)
    requires v == AfterAttempt(w, sequences, response, save)
    ensures Good(v) && w.memory <= v.memory && w.acked <= v.acked && (Ahead(w) ==> Ahead(v))
    ensures w.memory == w.file ==> w.file <= v.file
  {
    if Advance(sequences, response).Some? { AdvanceIsSafe(w, hi, sequences, response); }
  }

  /** Every step keeps both checkpoints safe. Only a power loss lowers the exporter's, and only after a
      process restart from a file that was not synced. */
  lemma StepKeeps(w: World, e: Event)
    requires Good(w) && Possible(w, e)
    ensures Good(Step(w, e)) && w.acked <= Step(w, e).acked
    ensures !e.PowerLost? || Ahead(w) ==> w.memory <= Step(w, e).memory
    ensures Ahead(w) && !e.Restarted? ==> Ahead(Step(w, e))
    ensures w.memory == w.file && !e.PowerLost? ==> w.file <= Step(w, e).file
  {
    match e
    case Moved(log) => MoveKeeps(w, log);
    case Restarted =>
    case PowerLost(_) =>
    case Attempted(log, hi, response, save) =>
      MoveKeeps(w, log);
      AttemptKeeps(w.(log := log), Assigned(log, w.memory + 1, hi), hi, response, save, Step(w, e));
  }

  ghost function Run(w: World, events: seq<Event>): World
    requires Good(w) && AllPossible(w, events)
    decreases |events|
  {
    if events == [] then w
    else
      StepKeeps(w, events[0]);
      Run(Step(w, events[0]), events[1..])
  }

  ghost predicate AllPossible(w: World, events: seq<Event>)
    requires Good(w)
    decreases |events|
  {
    events == [] || (Possible(w, events[0]) && (StepKeeps(w, events[0]); AllPossible(Step(w, events[0]), events[1..])))
  }

  ghost predicate NoPowerLoss(events: seq<Event>) { forall e :: e in events ==> !e.PowerLost? }

  /** No silent loss: along every run, with crashes, every number ever assigned at or below the
      exporter's checkpoint, or the file's, or one that a power loss may bring back, was acknowledged. */
  lemma {:induction false} NoSilentLoss(w: World, events: seq<Event>, checkpoint: int)
    requires Good(w) && AllPossible(w, events)
    requires checkpoint == Run(w, events).memory || checkpoint in Run(w, events).older
    ensures Good(Run(w, events))
    ensures Run(w, events).memory <= Run(w, events).file && Run(w, events).file in Run(w, events).older
    ensures forall s :: s in Run(w, events).log.content && s <= checkpoint ==> s in Run(w, events).acked
    decreases |events|
  {
    if events != [] {
      StepKeeps(w, events[0]);
      NoSilentLoss(Step(w, events[0]), events[1..], checkpoint);
    }
  }

  /** The exporter's checkpoint only rises, in every run without a power loss and in every run without
      a mere process restart. */
  lemma {:induction false} CheckpointRises(w: World, events: seq<Event>)
    requires Good(w) && AllPossible(w, events) && (NoPowerLoss(events) || (Ahead(w) && Restarted !in events))
    ensures w.memory <= Run(w, events).memory
    decreases |events|
  {
    if events != [] {
      assert events[0] in events && events == [events[0]] + events[1..];
      StepKeeps(w, events[0]);
      CheckpointRises(Step(w, events[0]), events[1..]);
    }
  }

  /** It can fall in the next step if and only if a power loss may bring back a smaller number. */
  lemma CheckpointCanFall(w: World)
    requires Good(w)
    ensures (exists e :: Possible(w, e) && Step(w, e).memory < w.memory) <==> !Ahead(w)
  {
    if n :| n in w.older && n < w.memory { assert Possible(w, PowerLost(n)) && Step(w, PowerLost(n)).memory == n; }
    if e :| Possible(w, e) && Step(w, e).memory < w.memory { StepKeeps(w, e); }
  }

  /** An exporter that has saved nothing, on any stream. */
  function Beginning(log: Log): World { World(log, -1, -1, {-1}, {}) }

  /** From there, over every run: nothing at or below the checkpoint is unacknowledged. */
  lemma EveryRunIsSafe(log: Log, events: seq<Event>)
    requires log.Valid() && AllPossible(Beginning(log), events)
    ensures var w := Run(Beginning(log), events);
            && -1 <= w.memory <= w.file
            && (forall s :: s in w.log.content && s <= w.file ==> s in w.acked)
            && Good(w)
  {
    NoSilentLoss(Beginning(log), events, Run(Beginning(log), events).memory);
    NoSilentLoss(Beginning(log), events, Run(Beginning(log), events).file);
  }

  /** Eviction ahead of the cursor makes an attempt put nothing. */
  lemma StoppedStep(w: World, e: Event)
    requires Good(w) && Possible(w, e) && w.memory + 1 < w.log.oldest
    ensures Step(w, e).acked == w.acked && w.log.oldest <= Step(w, e).log.oldest
    ensures !e.PowerLost? ==> Step(w, e).file == w.file && Step(w, e).older == w.older
    ensures !e.PowerLost? ==> Step(w, e).memory == if e.Restarted? then w.file else w.memory
  {}

  /** An eviction ahead stops the exporter: whatever happens then, it acknowledges and saves nothing
      more, until a restart takes it to a file that is further on; and never, not after a power loss
      either, if all that may be left of the file is behind too. */
  lemma {:induction false} EvictionStops(w: World, events: seq<Event>)
    requires Good(w) && AllPossible(w, events) && w.memory + 1 < w.log.oldest
    requires (forall n :: n in w.older ==> n + 1 < w.log.oldest) || (Restarted !in events && NoPowerLoss(events))
    ensures Run(w, events).acked == w.acked && Run(w, events).file in w.older
    ensures Run(w, events).memory == w.memory || Run(w, events).memory in w.older
    ensures NoPowerLoss(events) ==> Run(w, events).file == w.file &&
                                    Run(w, events).memory == if Restarted in events then w.file else w.memory
    decreases |events|
  {
    if events != [] {
      StepKeeps(w, events[0]);
      StoppedStep(w, events[0]);
      assert events[0] in events && events == [events[0]] + events[1..];
      EvictionStops(Step(w, events[0]), events[1..]);
    }
  }

  /** The next message is one that a batch can begin with. */
  predicate Sendable(log: Log, s: nat) {
    s in log.content && log.content[s].Line? && |log.content[s].data| <= MAX_RECORD
  }

  lemma OneIsPuttable(log: Log, s: nat)
    requires Sendable(log, s)
    ensures Puttable(log, [s])
  {
    var records := [log.content[s].data];
    assert Bytes(records[..0]) == 0;
    assert WithinLimits(records) && Carries(records, [s], log);
  }

  lemma PuttableSends(log: Log, sequences: seq<nat>, s: nat)
    requires Puttable(log, sequences) && s in sequences
    ensures Sendable(log, s)
  {
    var records :| WithinLimits(records) && Carries(records, sequences, log);
    var i :| 0 <= i < |sequences| && sequences[i] == s;
    assert records[i] in records;
  }

  /** The exporter is not stopped, and the next message it can send comes before the file's number. */
  predicate ShorterReady(w: World)
    requires w.memory >= -1
  {
    var n := Least(w.log, w.memory + 1);
    Ready(w.log, w.memory + 1) && n.Some? && n.value < w.file && Sendable(w.log, n.value)
  }

  /** The file may go back, and exactly then: a save that failed after the rename left it ahead of the
      exporter, and a shorter success can follow or a power loss undo the rename. */
  lemma FileCanFall(w: World)
    requires Good(w)
    ensures (exists e :: Possible(w, e) && Step(w, e).file < w.file) <==>
            ShorterReady(w) || exists n :: n in w.older && n < w.file
  {
    if ShorterReady(w) { ShorterSuccess(w, Least(w.log, w.memory + 1).value); }
    if n :| n in w.older && n < w.file { assert Possible(w, PowerLost(n)) && Step(w, PowerLost(n)).file == n; }
    if e :| Possible(w, e) && Step(w, e).file < w.file {
      if !e.PowerLost? { FallsOnlySo(w, e); }
    }
  }

  lemma OneAccepted(s: nat)
    ensures Advance([s], Results([Success], 0)) == Some(s)
  {
    assert Failures([Success][1..]) == 0 && Prefix([Success][1..]) == 0;
  }

  lemma ShorterSuccess(w: World, s: nat)
    requires Good(w) && Ready(w.log, w.memory + 1) && Least(w.log, w.memory + 1) == Some(s) && Sendable(w.log, s)
    ensures var e := Attempted(w.log, s + 1, Results([Success], 0), Done); Possible(w, e) && Step(w, e).file == s
  {
    OnlyNext(w.log, w.memory + 1, s);
    OneIsPuttable(w.log, s);
    OneAccepted(s);
  }

  lemma OnlyNext(log: Log, cursor: nat, s: nat)
    requires log.Valid() && Least(log, cursor) == Some(s)
    ensures Assigned(log, cursor, s + 1) == [s]
  {
    AssignedNext(log, cursor, cursor, s);
  }

  lemma FallsOnlySo(w: World, e: Event)
    requires Good(w) && Possible(w, e) && Step(w, e).file < w.file && !e.PowerLost?
    ensures ShorterReady(w)
  {
    var sequences := Assigned(e.log, w.memory + 1, e.hi);
    var s := Advance(sequences, e.response).value;
    assert s in sequences;
    AssignedMeaning(e.log, w.memory + 1, e.hi, s);
    var n := Least(w.log, w.memory + 1).value;
    AssignedMeaning(e.log, w.memory + 1, e.hi, n);
    PuttableSends(e.log, sequences, n);
  }

  /** Such a world is reached from the start by one such save. */
  lemma FileCanLead(log: Log)
    requires log.Valid() && Sendable(log, 0) && Sendable(log, 1) && Ready(log, 0)
    requires |log.content[0].data| + |log.content[1].data| <= MAX_BATCH
    ensures var w, e := Beginning(log), Attempted(log, 2, Results([Success, Success], 0), Renamed);
            && Good(w) && Possible(w, e) && Step(w, e).memory == -1 && Step(w, e).file == 1
            && Step(w, e).older == {-1, 1} && !Ahead(Step(Step(w, e), Restarted))
  {
    assert Assigned(log, 0, 1) == [0];
    assert Assigned(log, 0, 2) == [0, 1];
    var records := [log.content[0].data, log.content[1].data];
    assert records[..1] == [log.content[0].data] && Bytes(records[..1][..0]) == 0;
    assert WithinLimits(records) && Carries(records, [0, 1], log);
    assert [Success, Success][1..] == [Success] && Failures([Success][1..]) == 0 && Prefix([Success][1..]) == 0;
  }

  // --- The reference stream is such a log ------------------------------------------------------------------

  /** The log of a stream whose messages carry these payloads: all numbers below `next` were assigned. */
  function LogOf(s: Streams.Stream, payload: nat -> Payload): Log {
    Log(map n: nat | 0 <= n < s.next :: payload(n), s.oldest, s.next, false)
  }

  /** Every append, with its evictions, and every restart moves the log as the exporter assumes. */
  lemma StreamEvolves(w: Streams.World, e: Streams.Event, start: int, payload: nat -> Payload)
    requires Streams.Good(w, start)
    ensures LogOf(w.stream, payload).Valid()
    ensures Evolves(LogOf(w.stream, payload), LogOf(Streams.Step(w, e).stream, payload))
  {
    Streams.StepKeeps(w, e, start);
  }

  /** Reading one message from a cursor: the stream's answer and the log's agree. */
  lemma StreamReadsLog(s: Streams.Stream, cursor: nat, payload: nat -> Payload)
    requires Streams.Valid(s)
    ensures Streams.Read(s, cursor, 1, 1) ==
              if cursor < s.oldest then Streams.Failed(Streams.Evicted(s.oldest))
              else match Least(LogOf(s, payload), cursor)
                   case None => Streams.Failed(Streams.NotEnough)
                   case Some(n) => Streams.Sequences([n])
  {
    Streams.ReadMeaning(s, cursor, 1, 1);
    if cursor >= s.oldest && cursor < s.next {
      assert Streams.Range(cursor, cursor + 1) == [cursor];
    }
  }
}
