/** Merging JSON patches into documents: null deletes, objects merge, what becomes empty goes. */
module Merging {
  import opened Common
  import opened Json

  /** The object under a key, or an empty one where there is none. */
  function Under(target: Fields, k: string): Fields {
    if k in target && target[k].Obj? then target[k].fields else map[]
  }

  /** What one key holds after the merge. */
  function MergeKey(target: Fields, patch: Value, k: string): Option<Value>
    requires patch.Obj?
    decreases patch, 0
  {
    if k !in patch.fields then (if k in target then Some(target[k]) else None)
    else
      match patch.fields[k]
      case Null => None
      case Obj(_) =>
        var nested := Merge(Under(target, k), patch.fields[k]);
        if nested == map[] then None else Some(Obj(nested))
      case v => Some(v)
  }

  function Merge(target: Fields, patch: Value): Fields
    requires patch.Obj?
    decreases patch, 1
  {
    map k | k in target.Keys + patch.fields.Keys && MergeKey(target, patch, k).Some? :: MergeKey(target, patch, k).value
  }

  /** A key after the merge, whichever key it is. */
  function Get(fields: Fields, k: string): Option<Value> { if k in fields then Some(fields[k]) else None }

  lemma MergeAt(target: Fields, patch: Value, k: string)
    requires patch.Obj?
    ensures Get(Merge(target, patch), k) == MergeKey(target, patch, k)
  {}

  lemma SameAtAllKeys(x: Fields, y: Fields)
    requires forall k :: Get(x, k) == Get(y, k)
    ensures x == y
  {
    forall k ensures k in x <==> k in y { assert Get(x, k) == Get(y, k); }
    forall k | k in x ensures x[k] == y[k] { assert Get(x, k) == Get(y, k); }
  }

  /** The source's loop over the patch, in any order of its keys. */
  method MergeInto(target: Fields, patch: Value) returns (r: Fields)
    requires patch.Obj?
    ensures r == Merge(target, patch)
    decreases patch
  {
    r := target;
    var todo := patch.fields.Keys;
    while todo != {}
      invariant todo <= patch.fields.Keys
      invariant forall k :: Get(r, k) == if k in todo then Get(target, k) else MergeKey(target, patch, k)
      decreases |todo|
    {
      var key :| key in todo;
      var value := patch.fields[key];
      assert Get(r, key) == Get(target, key);
      if value.Null? {
        r := r - {key};
      } else if value.Obj? {
        var nested := MergeInto(Under(r, key), value);
        assert Under(r, key) == Under(target, key);
        r := if nested == map[] then r - {key} else r[key := Obj(nested)];
      } else {
        r := r[key := value];
      }
      todo := todo - {key};
    }
    forall k ensures Get(r, k) == Get(Merge(target, patch), k) { MergeAt(target, patch, k); }
    SameAtAllKeys(r, Merge(target, patch));
  }

  // --- Merging twice -----------------------------------------------------------------------

  /** A patch that leaves nothing of some object leaves nothing of an empty one. */
  lemma {:induction false} NothingLeft(target: Fields, patch: Value)
    requires patch.Obj? && Merge(target, patch) == map[]
    ensures Merge(map[], patch) == map[]
    decreases patch
  {
    forall k | k in patch.fields ensures MergeKey(map[], patch, k) == None {
      MergeAt(target, patch, k);
      if patch.fields[k].Obj? { NothingLeft(Under(target, k), patch.fields[k]); }
    }
  }

  /** Merging a patch a second time changes nothing, for any document and any patch. */
  lemma {:induction false} MergeIdempotent(target: Fields, patch: Value)
    requires patch.Obj?
    ensures Merge(Merge(target, patch), patch) == Merge(target, patch)
    decreases patch
  {
    var once := Merge(target, patch);
    forall k ensures Get(Merge(once, patch), k) == Get(once, k) {
      MergeAt(target, patch, k);
      MergeAt(once, patch, k);
      if k in patch.fields && patch.fields[k].Obj? {
        var v, under := patch.fields[k], Under(target, k);
        if Merge(under, v) == map[] { NothingLeft(under, v); } else { MergeIdempotent(under, v); }
      }
    }
    SameAtAllKeys(Merge(once, patch), once);
  }

  // --- What merging keeps ----------------------------------------------------------------------

  lemma {:induction false} MergeKeepsClean(target: Fields, patch: Value)
    requires patch.Obj? && Clean(target) && NoNullInArrays(patch)
    ensures Clean(Merge(target, patch))
    decreases patch
  {
    forall k | k in Merge(target, patch) ensures NoNull(Merge(target, patch)[k]) && Full(Merge(target, patch)[k]) {
      MergeAt(target, patch, k);
      if k in patch.fields {
        assert NoNullInArrays(patch.fields[k]);
        if patch.fields[k].Obj? { MergeKeepsClean(Under(target, k), patch.fields[k]); }
      }
    }
  }

  lemma {:induction false} MergeKeepsDepth(target: Fields, patch: Value, n: nat)
    requires patch.Obj? && Within(Obj(target), n) && Within(patch, n)
    ensures Within(Obj(Merge(target, patch)), n)
    decreases patch
  {
    forall k | k in Merge(target, patch) ensures Within(Merge(target, patch)[k], n - 1) {
      MergeAt(target, patch, k);
      if k in patch.fields && patch.fields[k].Obj? {
        assert Within(Obj(Under(target, k)), n - 1);
        MergeKeepsDepth(Under(target, k), patch.fields[k], n - 1);
      }
    }
  }

  // --- Clean patches -----------------------------------------------------------------------------

  /** Into an empty object, a clean one merges as itself. */
  lemma {:induction false} MergeIntoEmpty(patch: Value)
    requires patch.Obj? && Clean(patch.fields)
    ensures Merge(map[], patch) == patch.fields
    decreases patch
  {
    forall k ensures Get(Merge(map[], patch), k) == Get(patch.fields, k) {
      MergeAt(map[], patch, k);
      if k in patch.fields && patch.fields[k].Obj? {
        assert Clean(patch.fields[k].fields);
        MergeIntoEmpty(patch.fields[k]);
      }
    }
    SameAtAllKeys(Merge(map[], patch), patch.fields);
  }

  /** No key of a clean patch is pruned away. */
  lemma {:induction false} CleanPatchStays(target: Fields, patch: Value, k: string)
    requires patch.Obj? && Clean(patch.fields) && k in patch.fields
    ensures k in Merge(target, patch)
    decreases patch
  {
    MergeAt(target, patch, k);
    var v := patch.fields[k];
    assert NoNull(v) && Full(v);
    if v.Obj? {
      var j :| j in v.fields;
      CleanPatchStays(Under(target, k), v, j);
    }
  }

  // --- The delta -------------------------------------------------------------------------------------

  /** How the desired value under one key differs from what is reported; an absent key reads as null. */
  function DeltaKey(desired: Value, reported: Fields, k: string): Option<Value>
    requires desired.Obj? && k in desired.fields
    decreases desired, 0
  {
    var v, other := desired.fields[k], if k in reported then reported[k] else Null;
    if v.Obj? && other.Obj? then
      var nested := Delta(v, other.fields);
      if nested == map[] then None else Some(Obj(nested))
    else if JsonEqual(v, other) then None else Some(v)
  }

  function Delta(desired: Value, reported: Fields): Fields
    requires desired.Obj?
    decreases desired, 1
  {
    map k | k in desired.fields && DeltaKey(desired, reported, k).Some? :: DeltaKey(desired, reported, k).value
  }

  lemma {:induction false} DeltaIsClean(desired: Value, reported: Fields)
    requires desired.Obj? && Clean(desired.fields)
    ensures Clean(Delta(desired, reported))
    decreases desired
  {
    forall k | k in Delta(desired, reported)
      ensures NoNull(Delta(desired, reported)[k]) && Full(Delta(desired, reported)[k])
    {
      var v, d := desired.fields[k], DeltaKey(desired, reported, k);
      assert Delta(desired, reported)[k] == d.value && NoNull(v) && Full(v);
      if v.Obj? && k in reported && reported[k].Obj? {
        var nested := Delta(v, reported[k].fields);
        assert d == Some(Obj(nested));
        DeltaIsClean(v, reported[k].fields);
        CleanObject(nested);
      }
    }
  }

  lemma CleanObject(fields: Fields)
    requires Clean(fields) && fields != map[]
    ensures NoNull(Obj(fields)) && Full(Obj(fields))
  {}

  lemma {:induction false} NoDeltaToItself(desired: Value)
    requires desired.Obj?
    ensures Delta(desired, desired.fields) == map[]
    decreases desired
  {
    forall k | k in desired.fields ensures DeltaKey(desired, desired.fields, k) == None {
      JsonEqualReflexive(desired.fields[k]);
      if desired.fields[k].Obj? { NoDeltaToItself(desired.fields[k]); }
    }
  }

  /** A device that merges the delta into what it reports has nothing left to do. */
  lemma {:induction false} DeltaConverges(desired: Value, reported: Fields)
    requires desired.Obj? && Clean(desired.fields)
    ensures Delta(desired, Merge(reported, Obj(Delta(desired, reported)))) == map[]
    decreases desired
  {
    var merged := Merge(reported, Obj(Delta(desired, reported)));
    forall k | k in desired.fields ensures DeltaKey(desired, merged, k) == None {
      KeyConverges(desired, reported, k);
    }
  }

  lemma KeyConverges(desired: Value, reported: Fields, k: string)
    requires desired.Obj? && Clean(desired.fields) && k in desired.fields
    ensures DeltaKey(desired, Merge(reported, Obj(Delta(desired, reported))), k) == None
    decreases desired, 0
  {
    var delta := Delta(desired, reported);
    var v := desired.fields[k];
    assert NoNull(v) && Full(v);
    MergeAt(reported, Obj(delta), k);
    if v.Obj? && k in reported && reported[k].Obj? {
      DeltaConverges(v, reported[k].fields);
      if k in delta {
        DeltaIsClean(desired, reported);
        CleanPatchStays(reported, Obj(delta), k);
      }
    } else if k in delta {
      if v.Obj? {
        MergeIntoEmpty(v);
        NoDeltaToItself(v);
      } else {
        JsonEqualReflexive(v);
      }
    }
  }

  // --- The patch from one document to another ------------------------------------------------------------

  function PatchKey(stored: Fields, wanted: Value, k: string): Option<Value>
    requires wanted.Obj?
    decreases wanted, 0
  {
    if k !in wanted.fields then (if k in stored then Some(Null) else None)
    else
      var v := wanted.fields[k];
      if k in stored && stored[k].Obj? && v.Obj? then
        var inner := Patch(stored[k].fields, v);
        if inner == map[] then None else Some(Obj(inner))
      else if k !in stored || !JsonEqual(stored[k], v) then Some(v) else None
  }

  function Patch(stored: Fields, wanted: Value): Fields
    requires wanted.Obj?
    decreases wanted, 1
  {
    map k | k in stored.Keys + wanted.fields.Keys && PatchKey(stored, wanted, k).Some? ::
      PatchKey(stored, wanted, k).value
  }

  lemma MergeNothing(target: Fields)
    ensures Merge(target, Obj(map[])) == target
  {
    forall k ensures Get(Merge(target, Obj(map[])), k) == Get(target, k) { MergeAt(target, Obj(map[]), k); }
    SameAtAllKeys(Merge(target, Obj(map[])), target);
  }

  /** Merging the patch turns any document into the target, if the target is clean. */
  lemma {:induction false} PatchReaches(stored: Fields, wanted: Value)
    requires wanted.Obj? && Clean(wanted.fields)
    ensures FieldsEqual(Merge(stored, Obj(Patch(stored, wanted))), wanted.fields)
    decreases wanted
  {
    var merged := Merge(stored, Obj(Patch(stored, wanted)));
    forall k ensures k in merged <==> k in wanted.fields {
      PatchKeyReaches(stored, wanted, k);
    }
    forall k | k in merged ensures JsonEqual(merged[k], wanted.fields[k]) {
      PatchKeyReaches(stored, wanted, k);
    }
  }

  lemma PatchKeyReaches(stored: Fields, wanted: Value, k: string)
    requires wanted.Obj? && Clean(wanted.fields)
    ensures var merged := Merge(stored, Obj(Patch(stored, wanted)));
            (k in merged <==> k in wanted.fields) && (k in merged ==> JsonEqual(merged[k], wanted.fields[k]))
    decreases wanted, 0
  {
    var patch := Patch(stored, wanted);
    MergeAt(stored, Obj(patch), k);
    if k in wanted.fields {
      var v := wanted.fields[k];
      assert NoNull(v) && Full(v);
      if k in stored && stored[k].Obj? && v.Obj? {
        PatchReaches(stored[k].fields, v);
        MergeNothing(stored[k].fields);
      } else if k in patch {
        JsonEqualReflexive(v);
        if v.Obj? { MergeIntoEmpty(v); }
      }
    }
  }

  /** Where both sides hold a value that is not two objects, the source's equality tells them apart. */
  predicate AgreesAt(stored: Fields, wanted: Value, k: string)
    requires wanted.Obj? && k in wanted.fields && k in stored
    decreases wanted, 0
  {
    var v := wanted.fields[k];
    if stored[k].Obj? && v.Obj? then Agrees(stored[k].fields, v) else JsonEqual(stored[k], v) ==> stored[k] == v
  }

  /** No stored value is equal to the wanted one without being it. */
  predicate Agrees(stored: Fields, wanted: Value)
    requires wanted.Obj?
    decreases wanted, 1
  {
    forall k :: k in wanted.fields && k in stored ==> AgreesAt(stored, wanted, k)
  }

  /** Merging the patch gives exactly a clean target if and only if the stored document agrees with it. */
  lemma {:induction false} PatchExact(stored: Fields, wanted: Value)
    requires wanted.Obj? && Clean(wanted.fields)
    ensures Merge(stored, Obj(Patch(stored, wanted))) == wanted.fields <==> Agrees(stored, wanted)
    decreases wanted, 1
  {
    var merged := Merge(stored, Obj(Patch(stored, wanted)));
    forall k
      ensures Get(merged, k) == Get(wanted.fields, k) <==>
              (k in wanted.fields && k in stored ==> AgreesAt(stored, wanted, k))
    {
      PatchKeyExact(stored, wanted, k);
    }
    if Agrees(stored, wanted) { SameAtAllKeys(merged, wanted.fields); }
  }

  lemma PatchKeyExact(stored: Fields, wanted: Value, k: string)
    requires wanted.Obj? && Clean(wanted.fields)
    ensures Get(Merge(stored, Obj(Patch(stored, wanted))), k) == Get(wanted.fields, k) <==>
            (k in wanted.fields && k in stored ==> AgreesAt(stored, wanted, k))
    decreases wanted, 0
  {
    var patch := Patch(stored, wanted);
    MergeAt(stored, Obj(patch), k);
    if k in wanted.fields {
      var v := wanted.fields[k];
      assert NoNull(v) && Full(v);
      if k in stored && stored[k].Obj? && v.Obj? {
        PatchExact(stored[k].fields, v);
        PatchReaches(stored[k].fields, v);
        MergeNothing(stored[k].fields);
      } else if k in patch {
        JsonEqualReflexive(v);
        if v.Obj? { MergeIntoEmpty(v); }
      }
    }
  }

  /** Documents of whole numbers always agree. */
  lemma {:induction false} IntegralAgrees(stored: Fields, wanted: Value)
    requires wanted.Obj? && Integral(wanted) && Integral(Obj(stored))
    ensures Agrees(stored, wanted)
    decreases wanted
  {
    forall k | k in wanted.fields && k in stored ensures AgreesAt(stored, wanted, k) {
      if stored[k].Obj? && wanted.fields[k].Obj? {
        IntegralAgrees(stored[k].fields, wanted.fields[k]);
      } else if JsonEqual(stored[k], wanted.fields[k]) {
        EqualIsIdentical(stored[k], wanted.fields[k]);
      }
    }
  }
}
