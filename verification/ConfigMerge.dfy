/** Desired plugin configuration against the user's: the check whether one holds the other, and the
    merge that makes it so. JSON objects are maps, without the order of their keys.

    One key is special in the language: assigning to a `__proto__` that the object does not have
    itself sets its prototype and adds no key. */
module ConfigMerge {
  import opened Wrappers

  datatype Json =
    | Null
    | Bool(b: bool)
    | Num(n: real)
    | Str(s: string)
    | Arr(items: seq<Json>)
    | Obj(fields: Fields)

  type Fields = map<string, Json>

  const PROTO := "__proto__"

  // ---------------------------------------------------------------- equality of values

  /** `configValuesEqual`. */
  predicate Equal(actual: Json, desired: Json)
    decreases desired
  {
    if actual.Arr? || desired.Arr? then
      && actual.Arr? && desired.Arr? && |actual.items| == |desired.items|
      && forall i :: 0 <= i < |desired.items| ==> Equal(actual.items[i], desired.items[i])
    else if actual.Obj? && desired.Obj? then
      && |actual.fields| == |desired.fields|
      && forall k <- desired.fields :: k in actual.fields && Equal(actual.fields[k], desired.fields[k])
    else actual == desired
  }

  lemma {:induction false} SameDomain(a: Fields, b: Fields)
    requires |a| == |b| && forall k <- b :: k in a
    ensures a.Keys == b.Keys
  {
    assert |a.Keys| == |a| && |b.Keys| == |b|;
    assert |a.Keys - b.Keys| == |a.Keys| - |b.Keys| by { assert a.Keys == (a.Keys - b.Keys) + b.Keys; }
  }

  /** The recursive comparison is equality. */
  lemma {:induction false} EqualIsEquality(a: Json, b: Json)
    ensures Equal(a, b) <==> a == b
    decreases b
  {
    if a.Arr? && b.Arr? {
      forall i | 0 <= i < |b.items| && |a.items| == |b.items|
        ensures Equal(a.items[i], b.items[i]) <==> a.items[i] == b.items[i]
      {
        EqualIsEquality(a.items[i], b.items[i]);
      }
    } else if a.Obj? && b.Obj? {
      forall k | k in b.fields && k in a.fields
        ensures Equal(a.fields[k], b.fields[k]) <==> a.fields[k] == b.fields[k]
      {
        EqualIsEquality(a.fields[k], b.fields[k]);
      }
      if Equal(a, b) {
        SameDomain(a.fields, b.fields);
        assert a.fields == b.fields;
      }
    }
  }

  // ---------------------------------------------------------------- check and repair

  /** `isDeepSubset`: `actual` already holds everything that `desired` asks for. */
  predicate IsSubset(actual: Fields, desired: Fields)
    decreases Obj(desired), 0
  {
    forall k <- desired :: k in actual && Holds(actual[k], desired[k])
  }

  predicate Holds(actual: Json, desired: Json)
    decreases desired, 1
  {
    if desired.Arr? then actual.Arr? && Equal(actual, desired)
    else if actual.Obj? && desired.Obj? then IsSubset(actual.fields, desired.fields)
    else actual == desired
  }

  /** Assigning `key` gives the object such a key of its own. */
  predicate TakesKey(fields: Fields, key: string) { key != PROTO || key in fields }

  /** `deepMerge`. */
  function Merge(existing: Fields, desired: Fields): Fields
    decreases Obj(desired)
  {
    map k | k in existing.Keys + desired.Keys && TakesKey(existing, k) ::
      if k !in desired then existing[k]
      else if k in existing && existing[k].Obj? && desired[k].Obj?
      then Obj(Merge(existing[k].fields, desired[k].fields))
      else desired[k]
  }

  /** Every key that the merge assigns becomes a key of the object. */
  predicate Assignable(existing: Fields, desired: Fields)
    decreases Obj(desired)
  {
    forall k <- desired ::
      && TakesKey(existing, k)
      && (k in existing && existing[k].Obj? && desired[k].Obj? ==> Assignable(existing[k].fields, desired[k].fields))
  }

  lemma {:induction false} HoldsMeans(a: Json, d: Json)
    ensures Holds(a, d) <==> if a.Obj? && d.Obj? then IsSubset(a.fields, d.fields) else a == d
  {
    if d.Arr? { EqualIsEquality(a, d); }
  }

  /** An object holds itself, and merging it with itself changes nothing. */
  lemma {:induction false} SubsetReflexive(d: Fields)
    ensures IsSubset(d, d) && Merge(d, d) == d
    decreases Obj(d)
  {
    forall k | k in d ensures Holds(d[k], d[k]) && (d[k].Obj? ==> Merge(d[k].fields, d[k].fields) == d[k].fields) {
      if d[k].Obj? { SubsetReflexive(d[k].fields); }
      HoldsMeans(d[k], d[k]);
    }
  }

  /** Check and repair agree: the check passes exactly when the repair would change nothing and
      could assign every key. */
  lemma {:induction false} SubsetIffNothingToMerge(e: Fields, d: Fields)
    ensures IsSubset(e, d) <==> Merge(e, d) == e && Assignable(e, d)
    decreases Obj(d)
  {
    forall k | k in d && k in e
      ensures Holds(e[k], d[k])
         <==> if e[k].Obj? && d[k].Obj?
              then Merge(e[k].fields, d[k].fields) == e[k].fields && Assignable(e[k].fields, d[k].fields)
              else e[k] == d[k]
    {
      HoldsMeans(e[k], d[k]);
      if e[k].Obj? && d[k].Obj? { SubsetIffNothingToMerge(e[k].fields, d[k].fields); }
    }
    if IsSubset(e, d) { SubsetMergesToItself(e, d); }
    if Merge(e, d) == e && Assignable(e, d) {
      forall k <- d ensures k in e && Holds(e[k], d[k]) {
        assert k in Merge(e, d);
        assert Merge(e, d)[k] == e[k];
      }
    }
  }

  lemma {:induction false} SubsetMergesToItself(e: Fields, d: Fields)
    requires forall k <- d :: k in e
    requires forall k <- d :: if e[k].Obj? && d[k].Obj?
               then Merge(e[k].fields, d[k].fields) == e[k].fields && Assignable(e[k].fields, d[k].fields)
               else e[k] == d[k]
    ensures Merge(e, d) == e && Assignable(e, d)
  {
    forall k <- e ensures Merge(e, d)[k] == e[k] {}
    assert Merge(e, d).Keys == e.Keys;
  }

  /** The repair makes the check pass if and only if it can assign every key. */
  lemma {:induction false} RepairReachesTheCheckIff(e: Fields, d: Fields)
    ensures IsSubset(Merge(e, d), d) <==> Assignable(e, d)
    decreases Obj(d)
  {
    var m := Merge(e, d);
    forall k | k in d && k in m
      ensures Holds(m[k], d[k])
         <==> (k in e && e[k].Obj? && d[k].Obj? ==> Assignable(e[k].fields, d[k].fields))
    {
      HoldsMeans(m[k], d[k]);
      if k in e && e[k].Obj? && d[k].Obj? {
        RepairReachesTheCheckIff(e[k].fields, d[k].fields);
      } else if d[k].Obj? {
        SubsetReflexive(d[k].fields);
      }
    }
    assert forall k <- d :: k in m <==> TakesKey(e, k);
  }

  /** Merging twice is merging once. */
  lemma {:induction false} MergeTwice(e: Fields, d: Fields)
    ensures Merge(Merge(e, d), d) == Merge(e, d)
    decreases Obj(d)
  {
    var m := Merge(e, d);
    forall k | k in m && k in d && m[k].Obj? && d[k].Obj? ensures Merge(m[k].fields, d[k].fields) == m[k].fields {
      if k in e && e[k].Obj? { MergeTwice(e[k].fields, d[k].fields); } else { SubsetReflexive(d[k].fields); }
    }
    assert Merge(m, d).Keys == m.Keys;
  }

  /** What the desired configuration does not name is left as it was. */
  lemma {:induction false} MergeKeepsTheRest(e: Fields, d: Fields, k: string)
    requires k !in d
    ensures Find(Merge(e, d), k) == Find(e, k)
  {
  }

  /** A desired configuration that names `__proto__` is not reached by merging into an object
      without that key. */
  lemma {:induction false} ProtoIsNeverReached(e: Fields, v: Json)
    requires PROTO !in e
    ensures !IsSubset(Merge(e, map[PROTO := v]), map[PROTO := v])
  {
    var d: Fields := map[PROTO := v];
    assert PROTO in d && PROTO !in Merge(e, d);
  }
}
