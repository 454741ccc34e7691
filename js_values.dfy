/**
 * JavaScript values as the client handles them: what JSON parsing produces,
 * with an object represented as its own enumerable properties in insertion
 * order. Numbers are integers (amounts and ids are whole numbers throughout).
 */
module JsValues {
  import opened Text

  datatype Value =
    | Undefined
    | Null
    | Bool(b: bool)
    | Num(n: int)
    | Str(s: string)
    | Arr(items: seq<Value>)
    | Obj(props: seq<Prop>)

  datatype Prop = Prop(key: string, val: Value)

  /** JavaScript truthiness: `if (v)`, `!v`, `v || fallback`, `v && ...`. */
  predicate Truthy(v: Value) {
    match v
    case Undefined => false
    case Null => false
    case Bool(b) => b
    case Num(n) => n != 0
    case Str(s) => s != ""
    case Arr(_) => true
    case Obj(_) => true
  }

  /** The keys of an object, in insertion order: `Object.keys(o)`. */
  function Keys(props: seq<Prop>): (r: seq<string>)
    ensures |r| == |props|
    ensures forall i :: 0 <= i < |props| ==> r[i] == props[i].key
  {
    if props == [] then [] else [props[0].key] + Keys(props[1..])
  }

  /** The values of an object, in insertion order: `Object.values(o)`. */
  function Values(props: seq<Prop>): (r: seq<Value>)
    ensures |r| == |props|
    ensures forall i :: 0 <= i < |props| ==> r[i] == props[i].val
  {
    if props == [] then [] else [props[0].val] + Values(props[1..])
  }

  /**
   * `Object.entries(v)` for a value that is not `null` or `undefined` (on
   * those it throws): an object's properties, an array's or a string's
   * positions with their elements, and nothing for a boolean or a number.
   */
  function Entries(v: Value): (r: seq<Prop>)
    requires !v.Undefined? && !v.Null?
    ensures v.Obj? ==> r == v.props
    ensures v.Arr? ==> |r| == |v.items| && forall i :: 0 <= i < |r| ==> r[i] == Prop(NatToString(i), v.items[i])
    ensures v.Str? ==> |r| == |v.s| && forall i :: 0 <= i < |r| ==> r[i] == Prop(NatToString(i), Str([v.s[i]]))
    ensures v.Bool? || v.Num? ==> r == []
  {
    if v.Obj? then v.props
    else if v.Arr? then seq(|v.items|, i requires 0 <= i < |v.items| => Prop(NatToString(i), v.items[i]))
    else if v.Str? then seq(|v.s|, i requires 0 <= i < |v.s| => Prop(NatToString(i), Str([v.s[i]])))
    else []
  }

  predicate HasKey(props: seq<Prop>, k: string) {
    exists i :: 0 <= i < |props| && props[i].key == k
  }

  /** `o[k]`: the value under key `k`, or `undefined` when there is none. */
  function Lookup(props: seq<Prop>, k: string): (r: Value)
    ensures !HasKey(props, k) ==> r == Undefined
    ensures HasKey(props, k) ==>
      exists i :: 0 <= i < |props| && props[i].key == k && r == props[i].val
                  && forall j :: 0 <= j < i ==> props[j].key != k
  {
    if props == [] then Undefined
    else if props[0].key == k then props[0].val
    else Lookup(props[1..], k)
  }

  /** The own enumerable properties that `{...v}` copies (strings and arrays are not spread: see README). */
  function OwnProps(v: Value): seq<Prop> {
    if v.Obj? then v.props else []
  }

  /** Property access `v.k`; on anything but an object it yields `undefined`. */
  function Get(v: Value, k: string): Value {
    Lookup(OwnProps(v), k)
  }

  /** `{...a, k: v}`-style override: each property of `a` takes `b`'s value when `b` has its key. */
  function Override(a: seq<Prop>, b: seq<Prop>): (r: seq<Prop>)
    ensures Keys(r) == Keys(a)
  {
    if a == [] then []
    else [Prop(a[0].key, if HasKey(b, a[0].key) then Lookup(b, a[0].key) else a[0].val)] + Override(a[1..], b)
  }

  /** The properties of `b` whose keys `a` does not have, in `b`'s order. */
  function NewProps(a: seq<Prop>, b: seq<Prop>): seq<Prop> {
    if b == [] then []
    else (if HasKey(a, b[0].key) then [] else [b[0]]) + NewProps(a, b[1..])
  }

  /**
   * The object literal `{...a, ...b}`: `a`'s keys keep their positions, `b`
   * wins on shared keys, and `b`'s other keys follow in `b`'s order.
   */
  function Merge(a: seq<Prop>, b: seq<Prop>): seq<Prop> {
    Override(a, b) + NewProps(a, b)
  }

  lemma {:induction false} LookupAppend(a: seq<Prop>, b: seq<Prop>, k: string)
    ensures Lookup(a + b, k) == if HasKey(a, k) then Lookup(a, k) else Lookup(b, k)
    ensures HasKey(a + b, k) <==> HasKey(a, k) || HasKey(b, k)
  {
    if a == [] {
      assert a + b == b;
    } else {
      assert (a + b)[1..] == a[1..] + b;
      LookupAppend(a[1..], b, k);
      if a[0].key != k {
        assert HasKey(a, k) <==> HasKey(a[1..], k) by {
          if HasKey(a, k) {
            var i :| 0 <= i < |a| && a[i].key == k;
            assert a[1..][i - 1] == a[i];
          }
          if HasKey(a[1..], k) {
            var i :| 0 <= i < |a[1..]| && a[1..][i].key == k;
            assert a[i + 1] == a[1..][i];
          }
        }
        assert HasKey(a + b, k) <==> HasKey(a[1..] + b, k) by {
          if HasKey(a + b, k) {
            var i :| 0 <= i < |a + b| && (a + b)[i].key == k;
            assert (a + b)[1..][i - 1] == (a + b)[i];
          }
          if HasKey(a[1..] + b, k) {
            var i :| 0 <= i < |a[1..] + b| && (a[1..] + b)[i].key == k;
            assert (a + b)[i + 1] == (a[1..] + b)[i];
          }
        }
      } else {
        assert (a + b)[0] == a[0];
      }
    }
  }

  lemma {:induction false} LookupOverride(a: seq<Prop>, b: seq<Prop>, k: string)
    ensures HasKey(Override(a, b), k) <==> HasKey(a, k)
    ensures HasKey(a, k) ==> Lookup(Override(a, b), k) == if HasKey(b, k) then Lookup(b, k) else Lookup(a, k)
  {
    var o := Override(a, b);
    assert Keys(o) == Keys(a);
    assert |o| == |a|;
    assert HasKey(o, k) <==> HasKey(a, k) by {
      if HasKey(o, k) {
        var i :| 0 <= i < |o| && o[i].key == k;
        assert Keys(o)[i] == Keys(a)[i];
      }
      if HasKey(a, k) {
        var i :| 0 <= i < |a| && a[i].key == k;
        assert Keys(o)[i] == Keys(a)[i];
      }
    }
    if a != [] {
      LookupOverride(a[1..], b, k);
      assert o[1..] == Override(a[1..], b);
      if a[0].key != k {
        assert HasKey(a, k) ==> HasKey(a[1..], k) by {
          if HasKey(a, k) {
            var i :| 0 <= i < |a| && a[i].key == k;
            assert a[1..][i - 1] == a[i];
          }
        }
      }
    }
  }

  lemma {:induction false} LookupNewProps(a: seq<Prop>, b: seq<Prop>, k: string)
    requires !HasKey(a, k)
    ensures Lookup(NewProps(a, b), k) == Lookup(b, k)
    ensures HasKey(NewProps(a, b), k) <==> HasKey(b, k)
  {
    if b != [] {
      LookupNewProps(a, b[1..], k);
      var head := if HasKey(a, b[0].key) then [] else [b[0]];
      assert NewProps(a, b) == head + NewProps(a, b[1..]);
      LookupAppend(head, NewProps(a, b[1..]), k);
      assert HasKey(b, k) <==> b[0].key == k || HasKey(b[1..], k) by {
        if HasKey(b, k) && b[0].key != k {
          var i :| 0 <= i < |b| && b[i].key == k;
          assert b[1..][i - 1] == b[i];
        }
        if HasKey(b[1..], k) {
          var i :| 0 <= i < |b[1..]| && b[1..][i].key == k;
          assert b[i + 1] == b[1..][i];
        }
      }
      if b[0].key == k {
        assert head == [b[0]];
        assert HasKey(head, k) by { assert head[0].key == k; }
      } else {
        assert !HasKey(head, k);
      }
    }
  }

  /**
   * Reading a key of `{...a, ...b}` gives `b`'s value when `b` has the key and
   * `a`'s value otherwise (`undefined` when neither has it).
   */
  lemma MergeLookup(a: seq<Prop>, b: seq<Prop>, k: string)
    ensures Lookup(Merge(a, b), k) == if HasKey(b, k) then Lookup(b, k) else Lookup(a, k)
    ensures HasKey(Merge(a, b), k) <==> HasKey(a, k) || HasKey(b, k)
  {
    LookupAppend(Override(a, b), NewProps(a, b), k);
    LookupOverride(a, b, k);
    if !HasKey(a, k) {
      LookupNewProps(a, b, k);
    }
  }

  /** The keys of `b` that `a` lacks, in `b`'s order. */
  function KeysNotIn(a: seq<Prop>, ks: seq<string>): seq<string> {
    if ks == [] then []
    else (if HasKey(a, ks[0]) then [] else [ks[0]]) + KeysNotIn(a, ks[1..])
  }

  /** The keys of `{...a, ...b}` are `a`'s keys in order, then `b`'s new keys in order. */
  lemma {:induction false} MergeKeys(a: seq<Prop>, b: seq<Prop>)
    ensures Keys(Merge(a, b)) == Keys(a) + KeysNotIn(a, Keys(b))
  {
    KeysAppend(Override(a, b), NewProps(a, b));
    NewPropsKeys(a, b);
  }

  lemma KeysAppend(x: seq<Prop>, y: seq<Prop>)
    ensures Keys(x + y) == Keys(x) + Keys(y)
  {
    assert |Keys(x + y)| == |Keys(x) + Keys(y)|;
    forall i | 0 <= i < |x + y| ensures Keys(x + y)[i] == (Keys(x) + Keys(y))[i] {
      if i >= |x| { assert (x + y)[i] == y[i - |x|]; }
    }
  }

  lemma {:induction false} NewPropsKeys(a: seq<Prop>, b: seq<Prop>)
    ensures Keys(NewProps(a, b)) == KeysNotIn(a, Keys(b))
  {
    if b != [] {
      NewPropsKeys(a, b[1..]);
      var head := if HasKey(a, b[0].key) then [] else [b[0]];
      KeysAppend(head, NewProps(a, b[1..]));
      assert Keys(b)[1..] == Keys(b[1..]);
    }
  }

  /** `String(v)`, and so `new Error(v).message`, for a value of the model. */
  function JsString(v: Value): string
    decreases v
  {
    match v
    case Undefined => "undefined"
    case Null => "null"
    case Bool(b) => if b then "true" else "false"
    case Num(n) => IntToString(n)
    case Str(s) => s
    case Obj(_) => "[object Object]"
    case Arr(items) => JoinWithCommas(seq(|items|, i requires 0 <= i < |items| =>
                         if items[i].Undefined? || items[i].Null? then "" else JsString(items[i])))
  }

  /** `Array.prototype.join(",")` over already-rendered elements. */
  function JoinWithCommas(parts: seq<string>): string {
    if parts == [] then ""
    else if |parts| == 1 then parts[0]
    else parts[0] + "," + JoinWithCommas(parts[1..])
  }

  /** Truthy values other than arrays render to a non-empty string. */
  lemma TruthyNonArrayRendersNonEmpty(v: Value)
    requires Truthy(v) && !v.Arr?
    ensures JsString(v) != ""
  {
  }
}
