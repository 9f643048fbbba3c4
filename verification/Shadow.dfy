/** Device shadows: named documents with a desired and a reported section, versioned. */
module Shadow {
  import opened Common
  import opened Json
  import opened Merging
  import Utf8

  const MAX_BYTES := 8192
  const MAX_DEPTH := 8
  const TOKEN_MAX := 64

  /** Versions outlive the documents they count. */
  datatype Store = Store(documents: map<string, Fields>, versions: map<string, nat>)

  const EMPTY := Store(map[], map[])

  /** An update request; `extra` if it has a field besides these three. */
  datatype Request = Request(state: Option<Value>, version: Option<Value>, clientToken: Option<Value>, extra: bool)

  datatype Op = Get(name: string) | Delete(name: string, version: Option<Value>)
      | Update(name: string, request: Request)

  datatype Code = Invalid | NotFound | Conflict | TooLarge

  datatype Response = View(state: Fields, version: nat, clientToken: Option<Value>) | Deleted(version: nat)
      | Error(code: Code)

  predicate NameChar(c: char) {
    'a' <= c <= 'z' || 'A' <= c <= 'Z' || '0' <= c <= '9' || c == ':' || c == '_' || c == '-'
  }

  predicate NameBody(n: string) { 1 <= |n| <= 64 && forall i :: 0 <= i < |n| ==> NameChar(n[i]) }

  /** The pattern ends in `$`, which also matches before one final line feed. */
  predicate ValidName(n: string) {
    n == "" || NameBody(n) || (|n| > 1 && n[|n| - 1] == '\n' && NameBody(n[..|n| - 1]))
  }

  /** A JSON integer of at least one; neither a boolean nor a float. */
  predicate ValidVersion(v: Value) { v.Number? && !v.float && v.value >= 1.0 }

  function VersionOf(s: Store, name: string): nat { if name in s.versions then s.versions[name] else 0 }

  predicate IsVersion(v: Value, n: nat) { v.Number? && v.value == n as real }

  function Document(s: Store, name: string): Fields { if name in s.documents then s.documents[name] else map[] }

  /** The stored sections, and the delta if there is one. */
  function Viewed(document: Fields): Fields {
    var sections := map k | k in document && k in {"desired", "reported"} :: document[k];
    var delta := Delta(Obj(Under(document, "desired")), Under(document, "reported"));
    if delta == map[] then sections else sections["delta" := Obj(delta)]
  }

  predicate TokenFits(token: Option<Value>) {
    token == None || token == Some(Null) || (token.value.Str? && Utf8.Size(token.value.s) <= TOKEN_MAX)
  }

  /** Sections only, each an object or null, not too deep, no null under an array. */
  predicate StateFits(state: Value) {
    && state.Obj? && state.fields.Keys <= {"desired", "reported"}
    && (forall k :: k in state.fields ==> state.fields[k].Null? || state.fields[k].Obj?)
    && (forall k :: k in state.fields ==> Within(state.fields[k], MAX_DEPTH))
    && NoNullInArrays(state)
  }

  /** The checks before the merge, given the current version and whether there is a document. */
  function RequestError(r: Request, current: nat, found: bool): Option<Code> {
    if !TokenFits(r.clientToken) || r.extra || r.state == None || !StateFits(r.state.value) then Some(Invalid)
    else if r.version.Some? && !ValidVersion(r.version.value) then Some(Invalid)
    else if r.version.Some? && (!IsVersion(r.version.value, current) || !found) then Some(Conflict)
    else None
  }

  function UpdateError(s: Store, name: string, r: Request, size: Value -> nat): Option<Code> {
    var early := RequestError(r, VersionOf(s, name), name in s.documents);
    if early.Some? then early
    else if size(Obj(Merge(Document(s, name), r.state.value))) > MAX_BYTES then Some(TooLarge)
    else None
  }

  function Token(r: Request): Option<Value> { if r.clientToken == Some(Null) then None else r.clientToken }

  /** One operation: the store after it and the answer. */
  function Apply(s: Store, op: Op, size: Value -> nat): (Store, Response) {
    if !ValidName(op.name) then (s, Error(Invalid))
    else
      match op
      case Get(name) =>
        if name in s.documents then (s, View(Viewed(s.documents[name]), VersionOf(s, name), None))
            else (s, Error(NotFound))
      case Delete(name, version) =>
        if version.Some? && !ValidVersion(version.value) then (s, Error(Invalid))
        else if name !in s.documents then (s, Error(NotFound))
        else if version.Some? && !IsVersion(version.value, VersionOf(s, name)) then (s, Error(Conflict))
        else
          var n := VersionOf(s, name) + 1;
          (Store(s.documents - {name}, s.versions[name := n]), Deleted(n))
      case Update(name, r) =>
        var error := UpdateError(s, name, r, size);
        if error.Some? then (s, Error(error.value))
        else
          var merged, n := Merge(Document(s, name), r.state.value), VersionOf(s, name) + 1;
          (Store(s.documents[name := merged], s.versions[name := n]), View(Viewed(merged), n, Token(r)))
  }

  // --- The store object --------------------------------------------------------------------------

  class ShadowStore {
    const size: Value -> nat  // bytes of the compact JSON text
    var documents: map<string, Fields>
    var versions: map<string, nat>

    ghost function Now(): Store
      reads this
    {
      Store(documents, versions)
    }

    constructor (size: Value -> nat)
      ensures Now() == EMPTY && this.size == size
    {
      this.size, documents, versions := size, map[], map[];
    }

    method DeleteShadow(name: string, version: Option<Value>) returns (r: Response)
      modifies this
      ensures (Now(), r) == Apply(old(Now()), Delete(name, version), size)
    {
      if !ValidName(name) { return Error(Invalid); }
      if version.Some? && !ValidVersion(version.value) { return Error(Invalid); }
      if name !in documents { return Error(NotFound); }
      var n := if name in versions then versions[name] else 0;
      if version.Some? && !IsVersion(version.value, n) { return Error(Conflict); }
      documents := documents - {name};
      versions := versions[name := n + 1];
      return Deleted(n + 1);
    }

    /** The loop over the sections is the merge one level up: null removes a section, an object
        merges into it, and a section that becomes empty is removed. */
    method UpdateShadow(name: string, request: Request) returns (r: Response)
      modifies this
      ensures (Now(), r) == Apply(old(Now()), Update(name, request), size)
    {
      if !ValidName(name) { return Error(Invalid); }
      var n := if name in versions then versions[name] else 0;
      var error := RequestError(request, n, name in documents);
      if error.Some? { return Error(error.value); }
      var current := if name in documents then documents[name] else map[];
      current := MergeInto(current, request.state.value);
      if size(Obj(current)) > MAX_BYTES { return Error(TooLarge); }
      documents := documents[name := current];
      versions := versions[name := n + 1];
      return View(Viewed(current), n + 1, Token(request));
    }
  }

  // --- Every reachable store ---------------------------------------------------------------------------

  ghost predicate ValidDocument(d: Fields) {
    && d.Keys <= {"desired", "reported"} && Clean(d)
    && forall k :: k in d ==> d[k].Obj? && Within(d[k], MAX_DEPTH)
  }

  ghost predicate Valid(s: Store) {
    forall n :: n in s.documents ==> ValidDocument(s.documents[n])
  }

  lemma MergeKeepsDocument(d: Fields, state: Value)
    requires ValidDocument(d) && StateFits(state)
    ensures ValidDocument(Merge(d, state))
  {
    MergeKeepsClean(d, state);
    forall k | k in Merge(d, state) ensures Merge(d, state)[k].Obj? && Within(Merge(d, state)[k], MAX_DEPTH) {
      MergeAt(d, state, k);
      if k in state.fields {
        assert Within(Obj(Under(d, k)), MAX_DEPTH);
        MergeKeepsDepth(Under(d, k), state.fields[k], MAX_DEPTH);
      }
    }
  }

  lemma ApplyKeeps(s: Store, op: Op, size: Value -> nat)
    requires Valid(s)
    ensures Valid(Apply(s, op, size).0)
  {
    if op.Update? && ValidName(op.name) && UpdateError(s, op.name, op.request, size).None? {
      MergeKeepsDocument(Document(s, op.name), op.request.state.value);
    }
  }

  function Run(s: Store, ops: seq<Op>, size: Value -> nat): Store
    decreases |ops|
  {
    if ops == [] then s else Run(Apply(s, ops[0], size).0, ops[1..], size)
  }

  /** No null anywhere, no empty object outside arrays, sections at most eight deep: in every
      document of every store any operations lead to. */
  lemma {:induction false} RunKeeps(s: Store, ops: seq<Op>, size: Value -> nat)
    requires Valid(s)
    ensures Valid(Run(s, ops, size))
    decreases |ops|
  {
    if ops != [] {
      ApplyKeeps(s, ops[0], size);
      RunKeeps(Apply(s, ops[0], size).0, ops[1..], size);
    }
  }

  /** A refused operation, and a read, leave the store as it was. */
  lemma RefusedChangesNothing(s: Store, op: Op, size: Value -> nat)
    ensures var r := Apply(s, op, size); r.1.Error? || op.Get? ==> r.0 == s
  {}

  predicate Changes(s: Store, op: Op, name: string, size: Value -> nat) {
    op.name == name && !op.Get? && !Apply(s, op, size).1.Error?
  }

  /** How many of the operations change the shadow of this name. */
  function ChangeCount(s: Store, ops: seq<Op>, name: string, size: Value -> nat): nat
    decreases |ops|
  {
    if ops == [] then 0
    else (if Changes(s, ops[0], name, size) then 1 else 0) + ChangeCount(Apply(s, ops[0], size).0, ops[1..], name, size)
  }

  /** The version counts the changes of the name, across deletion and re-creation: it rises with
      each successful update or delete and with nothing else. */
  lemma {:induction false} VersionCountsChanges(s: Store, ops: seq<Op>, name: string, size: Value -> nat)
    ensures VersionOf(Run(s, ops, size), name) == VersionOf(s, name) + ChangeCount(s, ops, name, size)
    decreases |ops|
  {
    if ops != [] {
      VersionStep(s, ops[0], name, size);
      VersionCountsChanges(Apply(s, ops[0], size).0, ops[1..], name, size);
    }
  }

  lemma VersionStep(s: Store, op: Op, name: string, size: Value -> nat)
    ensures var r := Apply(s, op, size);
            && VersionOf(r.0, name) == VersionOf(s, name) + (if Changes(s, op, name, size) then 1 else 0)
            && (Changes(s, op, name, size) ==> r.1.version == VersionOf(r.0, name))
  {}

  // --- The patch and the delta, through the store ----------------------------------------------------------

  /** Updating with the patch from what is stored to the target is refused without change or
      leaves the target stored, up to `1` and `1.0` being the same number. */
  lemma PatchUpdate(s: Store, name: string, target: Fields, version: Option<Value>, token: Option<Value>,
                    size: Value -> nat)
    requires Clean(target)
    ensures var patch := Obj(Patch(Document(s, name), Obj(target)));
            var r := Apply(s, Update(name, Request(Some(patch), version, token, false)), size);
            if r.1.Error? then r.0 == s
            else name in r.0.documents && FieldsEqual(r.0.documents[name], target)
                 && r.0.documents - {name} == s.documents - {name}
  {
    PatchReaches(Document(s, name), Obj(target));
  }

  /** It is exactly the target if and only if no stored value is equal to the wanted one without being it. */
  lemma PatchUpdateExact(s: Store, name: string, target: Fields, version: Option<Value>, token: Option<Value>,
                         size: Value -> nat)
    requires Clean(target)
    ensures var patch := Obj(Patch(Document(s, name), Obj(target)));
            var r := Apply(s, Update(name, Request(Some(patch), version, token, false)), size);
            !r.1.Error? ==> (r.0.documents[name] == target <==> Agrees(Document(s, name), Obj(target)))
  {
    PatchExact(Document(s, name), Obj(target));
  }

  /** A shadow that desires one number. */
  function Desiring(n: Value): Fields { map["desired" := Obj(map["a" := n])] }

  lemma DesiringFits(n: Value)
    requires n.Number?
    ensures Clean(Desiring(n)) && StateFits(Obj(Desiring(n))) && Merge(map[], Obj(Desiring(n))) == Desiring(n)
  {
    var d := Desiring(n);
    var section := d["desired"];
    assert section.fields.Keys == {"a"} && section.fields["a"] == n;
    assert NoNull(section) && Full(section) && NoNullInArrays(section);
    assert Within(section, MAX_DEPTH) by { assert Within(section.fields["a"], MAX_DEPTH - 1); }
    MergeIntoEmpty(Obj(d));
  }

  lemma EqualNeedsNoPatch(n: Value, m: Value)
    requires n.Number? && m.Number? && n.value == m.value && n != m
    ensures Patch(Desiring(n), Obj(Desiring(m))) == map[] && Desiring(n) != Desiring(m)
  {
    var x, y := Desiring(n)["desired"], Desiring(m)["desired"];
    assert x.fields["a"] != y.fields["a"];
    assert PatchKey(x.fields, y, "a") == None;
    assert Patch(x.fields, y) == map[];
  }

  /** An update with the empty state succeeds and keeps the document. */
  lemma NothingToUpdate(s: Store, d: Fields, size: Value -> nat)
    requires Document(s, "") == d && size(Obj(d)) <= MAX_BYTES
    ensures var r := Apply(s, Update("", Request(Some(Obj(map[])), None, None, false)), size);
            !r.1.Error? && r.0.documents[""] == d
  {
    MergeNothing(d);
  }

  /** From the empty store, a shadow that desires one number is patched towards another that is equal
      and not identical: the update succeeds and leaves the first. */
  lemma PatchCanMiss(n: Value, m: Value, size: Value -> nat)
    requires n.Number? && m.Number? && n.value == m.value && n != m && size(Obj(Desiring(n))) <= MAX_BYTES
    ensures var s := Apply(EMPTY, Update("", Request(Some(Obj(Desiring(n))), None, None, false)), size).0;
            var patch := Obj(Patch(Document(s, ""), Obj(Desiring(m))));
            var r := Apply(s, Update("", Request(Some(patch), None, None, false)), size);
            !r.1.Error? && r.0.documents[""] == Desiring(n) != Desiring(m)
  {
    var d := Desiring(n);
    DesiringFits(n);
    EqualNeedsNoPatch(n, m);
    var s := Apply(EMPTY, Update("", Request(Some(Obj(d)), None, None, false)), size).0;
    assert Document(s, "") == d;
    NothingToUpdate(s, d, size);
  }

  /** The two ways this happens: `1` towards `1.0`, and `0.0` towards `-0.0`. */
  lemma PatchMissesFloatAndSign()
    ensures !Agrees(Desiring(Number(1.0, false, false)), Obj(Desiring(Number(1.0, true, false))))
    ensures !Agrees(Desiring(Number(0.0, true, false)), Obj(Desiring(Number(0.0, true, true))))
  {
    PatchMisses(Number(1.0, false, false), Number(1.0, true, false));
    PatchMisses(Number(0.0, true, false), Number(0.0, true, true));
  }

  lemma PatchMisses(n: Value, m: Value)
    requires n.Number? && m.Number? && n.value == m.value && n != m
    ensures !Agrees(Desiring(n), Obj(Desiring(m)))
  {
    DesiringFits(m);
    EqualNeedsNoPatch(n, m);
    MergeNothing(Desiring(n));
    PatchExact(Desiring(n), Obj(Desiring(m)));
  }

  /** In every reachable store, reporting the delta clears it, unless the update is refused. */
  lemma ReportingTheDelta(ops: seq<Op>, name: string, size: Value -> nat)
    requires name in Run(EMPTY, ops, size).documents
    ensures var s := Run(EMPTY, ops, size);
            var d := s.documents[name];
            var delta := Delta(Obj(Under(d, "desired")), Under(d, "reported"));
            var r := Apply(s, Update(name, Request(Some(Obj(map["reported" := Obj(delta)])), None, None, false)), size);
            if r.1.Error? then r.0 == s else "delta" !in r.1.state
  {
    var s := Run(EMPTY, ops, size);
    RunKeeps(EMPTY, ops, size);
    var d := s.documents[name];
    DeltaCleared(d);
  }

  lemma DeltaCleared(d: Fields)
    requires ValidDocument(d)
    ensures var delta := Delta(Obj(Under(d, "desired")), Under(d, "reported"));
            "delta" !in Viewed(Merge(d, Obj(map["reported" := Obj(delta)])))
  {
    var desired, reported := Obj(Under(d, "desired")), Under(d, "reported");
    var delta := Delta(desired, reported);
    var patch := Obj(map["reported" := Obj(delta)]);
    MergeAt(d, patch, "desired");
    MergeAt(d, patch, "reported");
    assert "desired" in d ==> NoNull(d["desired"]) && Full(d["desired"]);
    assert Clean(Under(d, "desired"));
    DeltaConverges(desired, reported);
    var after := Merge(d, patch);
    assert Under(after, "desired") == Under(d, "desired");
    assert Under(after, "reported") == Merge(reported, Obj(delta));
  }
}
