/**
 * JavaScript values and plain objects, as far as the request builders use them.
 *
 * A plain object is its list of own enumerable properties in insertion order.
 * Assigning to an existing key replaces the value in place and keeps the key's
 * position; assigning to a new key appends it.  Object spread (`{a: 1, ...o}`)
 * is the same assignment repeated for each property of `o`, in order.
 */
module JsObjects {
  import opened Wrappers

  /** A JavaScript value as handed to `JSON.stringify` or received from the network.
      Numbers are carried as opaque reals: no operation here does arithmetic on them. */
  datatype JsValue =
    | JsUndefined
    | JsNull
    | JsBool(b: bool)
    | JsNumber(n: real)
    | JsString(s: string)
    | JsArray(items: seq<JsValue>)
    | JsObject(fields: seq<(string, JsValue)>)

  /** The own properties of a plain object, in insertion order. */
  type Props<V> = seq<(string, V)>

  /** The property names of `o`, in order. */
  function Keys<V>(o: Props<V>): seq<string> {
    seq(|o|, i requires 0 <= i < |o| => o[i].0)
  }

  lemma KeysCons<V>(x: (string, V), o: Props<V>)
    ensures Keys([x] + o) == [x.0] + Keys(o)
  {
    assert forall i :: 0 <= i < |o| ==> ([x] + o)[i + 1] == o[i];
  }

  predicate HasKey<V>(o: Props<V>, k: string) {
    exists i :: 0 <= i < |o| && o[i].0 == k
  }

  /** Every JavaScript object has distinct property names. */
  predicate UniqueKeys<V>(o: Props<V>) {
    forall i, j :: 0 <= i < j < |o| ==> o[i].0 != o[j].0
  }

  /** Property read `o[k]`; `None` stands for `undefined` from a missing key. */
  function Get<V>(o: Props<V>, k: string): Option<V> {
    if |o| == 0 then None
    else if o[0].0 == k then Some(o[0].1)
    else Get(o[1..], k)
  }

  /** A read yields a value exactly when the key is present. */
  lemma {:induction false} GetDefined<V>(o: Props<V>, k: string)
    ensures Get(o, k).Some? <==> HasKey(o, k)
  {
    if |o| != 0 && o[0].0 != k {
      GetDefined(o[1..], k);
      if HasKey(o, k) {
        var i :| 0 <= i < |o| && o[i].0 == k;
        assert o[1..][i - 1].0 == k;
      }
      if HasKey(o[1..], k) {
        var i :| 0 <= i < |o[1..]| && o[1..][i].0 == k;
        assert o[i + 1].0 == k;
      }
    }
  }

  /** In an object with distinct names, the property at position `i` is what its name reads. */
  lemma {:induction false} GetAt<V>(o: Props<V>, i: nat)
    requires UniqueKeys(o) && i < |o|
    ensures Get(o, o[i].0) == Some(o[i].1)
  {
    if i != 0 {
      assert o[1..][i - 1] == o[i];
      GetAt(o[1..], i - 1);
    }
  }

  /** Property assignment `o[k] = v`. */
  function Put<V>(o: Props<V>, k: string, v: V): (r: Props<V>)
    ensures |r| == if HasKey(o, k) then |o| else |o| + 1
  {
    if |o| == 0 then [(k, v)]
    else if o[0].0 == k then [(k, v)] + o[1..]
    else
      assert HasKey(o, k) <==> HasKey(o[1..], k) by {
        if HasKey(o, k) {
          var i :| 0 <= i < |o| && o[i].0 == k;
          assert o[1..][i - 1].0 == k;
        }
        if HasKey(o[1..], k) {
          var i :| 0 <= i < |o[1..]| && o[1..][i].0 == k;
          assert o[i + 1].0 == k;
        }
      }
      [o[0]] + Put(o[1..], k, v)
  }

  /** After `o[k] = v`, reading `k` gives `v` and every other key reads as before. */
  lemma {:induction false} PutGet<V>(o: Props<V>, k: string, v: V, k': string)
    ensures Get(Put(o, k, v), k') == if k' == k then Some(v) else Get(o, k')
  {
    if |o| != 0 && o[0].0 != k {
      PutGet(o[1..], k, v, k');
    }
  }

  /** Assignment to an existing key keeps the key order; to a new key it appends. */
  lemma {:induction false} PutKeys<V>(o: Props<V>, k: string, v: V)
    ensures HasKey(o, k) ==> Keys(Put(o, k, v)) == Keys(o)
    ensures !HasKey(o, k) ==> Put(o, k, v) == o + [(k, v)]
  {
    if |o| == 0 {
    } else if o[0].0 == k {
    } else {
      PutKeys(o[1..], k, v);
      assert o == [o[0]] + o[1..];
      KeysCons(o[0], o[1..]);
      KeysCons(o[0], Put(o[1..], k, v));
      assert HasKey(o, k) ==> HasKey(o[1..], k) by {
        if HasKey(o, k) {
          var i :| 0 <= i < |o| && o[i].0 == k;
          assert o[1..][i - 1].0 == k;
        }
      }
    }
  }

  /** Assignment never creates a duplicate property name. */
  lemma PutUnique<V>(o: Props<V>, k: string, v: V)
    requires UniqueKeys(o)
    ensures UniqueKeys(Put(o, k, v))
  {
    PutKeys(o, k, v);
    var r := Put(o, k, v);
    if HasKey(o, k) {
      assert forall i :: 0 <= i < |r| ==> r[i].0 == Keys(r)[i];
      assert forall i :: 0 <= i < |o| ==> o[i].0 == Keys(o)[i];
    } else {
      forall i, j | 0 <= i < j < |r|
        ensures r[i].0 != r[j].0
      {
        if j == |o| {
          assert !(o[i].0 == k);
        }
      }
    }
  }

  /** `Object.assign(target, source)`, which is also what `{...target, ...source}` builds:
      each property of `source`, in order, is assigned onto `target`. */
  function Assign<V>(target: Props<V>, source: Props<V>): Props<V>
    decreases |source|
  {
    if |source| == 0 then target
    else Assign(Put(target, source[0].0, source[0].1), source[1..])
  }

  /** The properties of `a` are, name for name, the first properties of `b`. */
  predicate KeyPrefix<V>(a: Props<V>, b: Props<V>) {
    |a| <= |b| && forall i :: 0 <= i < |a| ==> a[i].0 == b[i].0
  }

  /** After `Object.assign(target, source)` a key reads from `source` when `source` has it
      and from `target` otherwise: later properties override earlier ones. */
  lemma {:induction false} AssignGet<V>(target: Props<V>, source: Props<V>, k: string)
    requires UniqueKeys(source)
    ensures Get(Assign(target, source), k) == if HasKey(source, k) then Get(source, k) else Get(target, k)
    decreases |source|
  {
    if |source| != 0 {
      var s0 := source[0];
      var rest := source[1..];
      assert UniqueKeys(rest);
      AssignGet(Put(target, s0.0, s0.1), rest, k);
      PutGet(target, s0.0, s0.1, k);
      assert HasKey(source, k) <==> s0.0 == k || HasKey(rest, k) by {
        if HasKey(source, k) && s0.0 != k {
          var i :| 0 <= i < |source| && source[i].0 == k;
          assert rest[i - 1].0 == k;
        }
        if HasKey(rest, k) {
          var i :| 0 <= i < |rest| && rest[i].0 == k;
          assert source[i + 1].0 == k;
        }
      }
      if s0.0 == k {
        assert !HasKey(rest, k);
      }
    }
  }

  /** `Object.assign` keeps the target's properties first, in their order, and adds exactly
      the names of `source` that the target lacks. */
  lemma {:induction false} AssignKeys<V>(target: Props<V>, source: Props<V>)
    ensures KeyPrefix(target, Assign(target, source))
    ensures forall k :: HasKey(Assign(target, source), k) <==> HasKey(target, k) || HasKey(source, k)
    ensures UniqueKeys(target) ==> UniqueKeys(Assign(target, source))
    decreases |source|
  {
    if |source| != 0 {
      var s0 := source[0];
      var rest := source[1..];
      var mid := Put(target, s0.0, s0.1);
      AssignKeys(mid, rest);
      PutKeys(target, s0.0, s0.1);
      if HasKey(target, s0.0) {
        assert forall i :: 0 <= i < |mid| ==> mid[i].0 == Keys(mid)[i];
        assert forall i :: 0 <= i < |target| ==> target[i].0 == Keys(target)[i];
      }
      assert KeyPrefix(target, mid);
      forall k
        ensures HasKey(mid, k) <==> HasKey(target, k) || k == s0.0
      {
        PutGet(target, s0.0, s0.1, k);
        GetDefined(mid, k);
        GetDefined(target, k);
      }
      forall k
        ensures HasKey(source, k) <==> k == s0.0 || HasKey(rest, k)
      {
        if HasKey(source, k) && s0.0 != k {
          var i :| 0 <= i < |source| && source[i].0 == k;
          assert rest[i - 1].0 == k;
        }
        if HasKey(rest, k) {
          var i :| 0 <= i < |rest| && rest[i].0 == k;
          assert source[i + 1].0 == k;
        }
      }
      if UniqueKeys(target) {
        PutUnique(target, s0.0, s0.1);
      }
    }
  }
}
