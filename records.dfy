/**
 * The list updates both stores perform on their collections:
 * `list.map(r => r[field] === id ? { ...r, ...patch } : r)` and
 * `list.filter(r => r[field] !== id)`.
 */
module Records {
  import opened JsValues

  /** The record's id field holds `id` (`r[field] === id`). */
  predicate Matches(r: Value, field: string, id: Value) {
    Get(r, field) == id
  }

  /** `list.map(r => r[field])` */
  function Pluck(list: seq<Value>, field: string): (r: seq<Value>)
    ensures |r| == |list|
    ensures forall i :: 0 <= i < |list| ==> r[i] == Get(list[i], field)
  {
    if list == [] then [] else [Get(list[0], field)] + Pluck(list[1..], field)
  }

  /** `list.map(r => r[field] === id ? { ...r, ...patch } : r)` */
  function MergeWhere(list: seq<Value>, field: string, id: Value, patch: Value): seq<Value> {
    if list == [] then []
    else
      [if Matches(list[0], field, id) then Obj(Merge(OwnProps(list[0]), OwnProps(patch))) else list[0]]
      + MergeWhere(list[1..], field, id, patch)
  }

  /**
   * The merge keeps the length and the positions; a matching record takes the
   * patch's value for every key the patch has and keeps its own value for the
   * others; a record that does not match is untouched.
   */
  lemma {:induction false} MergeWhereSpec(list: seq<Value>, field: string, id: Value, patch: Value)
    ensures |MergeWhere(list, field, id, patch)| == |list|
    ensures forall i :: 0 <= i < |list| && !Matches(list[i], field, id) ==>
      MergeWhere(list, field, id, patch)[i] == list[i]
    ensures forall i :: 0 <= i < |list| && Matches(list[i], field, id) ==>
      MergeWhere(list, field, id, patch)[i] == Obj(Merge(OwnProps(list[i]), OwnProps(patch)))
  {
    if list != [] {
      MergeWhereSpec(list[1..], field, id, patch);
      var r := MergeWhere(list, field, id, patch);
      forall i | 1 <= i < |list| ensures r[i] == MergeWhere(list[1..], field, id, patch)[i - 1] && list[i] == list[1..][i - 1] {
      }
    }
  }

  /** Field by field, a merged record reads as the patch over the old record. */
  lemma MergedField(list: seq<Value>, field: string, id: Value, patch: Value, i: nat, k: string)
    requires i < |list| && Matches(list[i], field, id)
    ensures |MergeWhere(list, field, id, patch)| == |list|
    ensures Get(MergeWhere(list, field, id, patch)[i], k)
         == if HasKey(OwnProps(patch), k) then Get(patch, k) else Get(list[i], k)
  {
    MergeWhereSpec(list, field, id, patch);
    MergeLookup(OwnProps(list[i]), OwnProps(patch), k);
  }

  /** `list.filter(r => r[field] !== id)` */
  function RemoveWhere(list: seq<Value>, field: string, id: Value): seq<Value> {
    if list == [] then []
    else (if Matches(list[0], field, id) then [] else [list[0]]) + RemoveWhere(list[1..], field, id)
  }

  /** Filtering a concatenation filters each part and keeps them in order. */
  lemma {:induction false} RemoveWhereConcat(a: seq<Value>, b: seq<Value>, field: string, id: Value)
    ensures RemoveWhere(a + b, field, id) == RemoveWhere(a, field, id) + RemoveWhere(b, field, id)
  {
    if a == [] {
      assert a + b == b;
    } else {
      assert (a + b)[0] == a[0];
      assert (a + b)[1..] == a[1..] + b;
      RemoveWhereConcat(a[1..], b, field, id);
    }
  }

  /**
   * After the filter no record matches; every record that remains was in the
   * list and did not match; every record that did not match remains.
   */
  lemma {:induction false} RemoveWhereSpec(list: seq<Value>, field: string, id: Value)
    ensures forall x :: x in RemoveWhere(list, field, id) ==> x in list && !Matches(x, field, id)
    ensures forall i :: 0 <= i < |list| && !Matches(list[i], field, id) ==> list[i] in RemoveWhere(list, field, id)
    ensures |RemoveWhere(list, field, id)| <= |list|
  {
    if list != [] {
      RemoveWhereSpec(list[1..], field, id);
      var head := if Matches(list[0], field, id) then [] else [list[0]];
      var r := RemoveWhere(list, field, id);
      assert r == head + RemoveWhere(list[1..], field, id);
      forall i | 1 <= i < |list| ensures list[i] == list[1..][i - 1] { }
    }
  }

  /** A record that does not match is kept, and placed where the filter of its prefix ends. */
  lemma KeptInOrder(list: seq<Value>, field: string, id: Value, i: nat)
    requires i < |list| && !Matches(list[i], field, id)
    ensures RemoveWhere(list, field, id)
         == RemoveWhere(list[..i], field, id) + [list[i]] + RemoveWhere(list[i + 1..], field, id)
  {
    assert list == list[..i] + ([list[i]] + list[i + 1..]);
    RemoveWhereConcat(list[..i], [list[i]] + list[i + 1..], field, id);
    RemoveWhereConcat([list[i]], list[i + 1..], field, id);
    assert RemoveWhere([list[i]], field, id) == [list[i]] by {
      assert [list[i]][1..] == [];
    }
  }

  /** Filtering twice is filtering once. */
  lemma {:induction false} RemoveWhereIdempotent(list: seq<Value>, field: string, id: Value)
    ensures RemoveWhere(RemoveWhere(list, field, id), field, id) == RemoveWhere(list, field, id)
  {
    if list != [] {
      RemoveWhereIdempotent(list[1..], field, id);
      var head := if Matches(list[0], field, id) then [] else [list[0]];
      RemoveWhereConcat(head, RemoveWhere(list[1..], field, id), field, id);
      if head != [] {
        assert head[1..] == [];
      }
    }
  }

  /** When no record matches, the filter returns the list unchanged. */
  lemma {:induction false} RemoveWhereNoMatch(list: seq<Value>, field: string, id: Value)
    requires forall i :: 0 <= i < |list| ==> !Matches(list[i], field, id)
    ensures RemoveWhere(list, field, id) == list
  {
    if list != [] {
      assert forall i :: 0 <= i < |list[1..]| ==> list[1..][i] == list[i + 1];
      RemoveWhereNoMatch(list[1..], field, id);
    }
  }

  /** The create payload `{ ...data, userId: userId }` both stores send. */
  function CreatePayload(data: Value, userId: Value): Value {
    Obj(Merge(OwnProps(data), [Prop("userId", userId)]))
  }

  /**
   * The payload carries the current user's id whatever `data` said, and every
   * other field of `data` unchanged.
   */
  lemma CreatePayloadSpec(data: Value, userId: Value, k: string)
    ensures Get(CreatePayload(data, userId), "userId") == userId
    ensures k != "userId" ==> Get(CreatePayload(data, userId), k) == Get(data, k)
  {
    var u := [Prop("userId", userId)];
    assert HasKey(u, "userId") by { assert u[0].key == "userId"; }
    MergeLookup(OwnProps(data), u, "userId");
    MergeLookup(OwnProps(data), u, k);
  }
}
