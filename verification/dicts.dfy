/**
 * Python's `dict`, which remembers insertion order: a sequence of key/value pairs.
 * Assigning to a key already present replaces its value where it stands; a new key
 * goes to the end.
 */
module Dicts {
  import opened Wrappers

  type Dict<K, V> = seq<(K, V)>

  function Keys<K, V>(d: Dict<K, V>): seq<K> {
    seq(|d|, i requires 0 <= i < |d| => d[i].0)
  }

  ghost predicate Distinct<T>(s: seq<T>) {
    forall i, j :: 0 <= i < j < |s| ==> s[i] != s[j]
  }

  /** `d.get(k)` */
  function Get<K(==), V>(d: Dict<K, V>, k: K): (r: Option<V>)
    ensures r.None? <==> k !in Keys(d)
    ensures r.Some? ==> (k, r.value) in d
  {
    if d == [] then None
    else if d[0].0 == k then
      assert Keys(d)[0] == k;
      Some(d[0].1)
    else
      assert Keys(d) == [d[0].0] + Keys(d[1..]);
      Get(d[1..], k)
  }

  /** `d[k] = v` */
  function Put<K(==,!new), V>(d: Dict<K, V>, k: K, v: V): (r: Dict<K, V>)
    ensures Keys(r) == if k in Keys(d) then Keys(d) else Keys(d) + [k]
    ensures Get(r, k) == Some(v)
    ensures forall k' :: k' != k ==> Get(r, k') == Get(d, k')
  {
    if d == [] then
      KeysCons((k, v), []);
      GetCons((k, v), []);
      assert [(k, v)] + [] == [(k, v)];
      [(k, v)]
    else
      var h, t := d[0], d[1..];
      assert d == [h] + t;
      KeysCons(h, t);
      GetCons(h, t);
      if h.0 == k then
        KeysCons((k, v), t);
        GetCons((k, v), t);
        [(k, v)] + t
      else
        var rest := Put(t, k, v);
        KeysCons(h, rest);
        GetCons(h, rest);
        assert [h.0] + (Keys(t) + [k]) == [h.0] + Keys(t) + [k];
        [h] + rest
  }

  lemma KeysCons<K, V>(h: (K, V), t: Dict<K, V>)
    ensures Keys([h] + t) == [h.0] + Keys(t)
  {
  }

  lemma GetCons<K, V>(h: (K, V), t: Dict<K, V>)
    ensures forall k :: Get([h] + t, k) == if h.0 == k then Some(h.1) else Get(t, k)
  {
    assert ([h] + t)[0] == h;
    assert ([h] + t)[1..] == t;
  }

  /** A key written by one selected item, if the item is selected at all. */
  predicate Writes<K(==), V>(o: Option<(K, V)>, k: K) {
    o.Some? && o.value.0 == k
  }

  /**
   * A loop that, for each item `x` of `xs` in order, stores `v` under `k` in an
   * initially empty dict when `sel(x)` is `Some((k, v))` and skips the item otherwise.
   */
  function PutEach<T, K(==,!new), V>(xs: seq<T>, sel: T -> Option<(K, V)>): Dict<K, V> {
    if xs == [] then []
    else
      var d := PutEach(xs[..|xs| - 1], sel);
      match sel(xs[|xs| - 1])
      case None => d
      case Some(kv) => Put(d, kv.0, kv.1)
  }

  lemma PutEachSnoc<T, K(!new), V>(xs: seq<T>, x: T, sel: T -> Option<(K, V)>)
    ensures PutEach(xs + [x], sel) ==
      match sel(x) case None => PutEach(xs, sel) case Some(kv) => Put(PutEach(xs, sel), kv.0, kv.1)
  {
    assert (xs + [x])[..|xs|] == xs;
  }

  /** One more iteration of the loop `PutEach` describes. */
  lemma PutEachStep<T, K(!new), V>(xs: seq<T>, i: nat, sel: T -> Option<(K, V)>)
    requires i < |xs|
    ensures PutEach(xs[..i + 1], sel) ==
      match sel(xs[i]) case None => PutEach(xs[..i], sel) case Some(kv) => Put(PutEach(xs[..i], sel), kv.0, kv.1)
  {
    assert xs[..i + 1] == xs[..i] + [xs[i]];
    PutEachSnoc(xs[..i], xs[i], sel);
  }

  /** Item `i` writes `k` and no later item does. */
  ghost predicate LastWrite<T, K(!new), V>(xs: seq<T>, sel: T -> Option<(K, V)>, k: K, i: int) {
    && 0 <= i < |xs|
    && Writes(sel(xs[i]), k)
    && forall j :: i < j < |xs| ==> !Writes(sel(xs[j]), k)
  }

  /** No item writes `k`. */
  ghost predicate NeverWritten<T, K(!new), V>(xs: seq<T>, sel: T -> Option<(K, V)>, k: K) {
    forall i :: 0 <= i < |xs| ==> !Writes(sel(xs[i]), k)
  }

  /**
   * Last write wins: a key is present exactly when some item writes it, and its value
   * is the one written by the last such item.
   */
  lemma {:induction false} PutEachGet<T, K(!new), V>(xs: seq<T>, sel: T -> Option<(K, V)>, k: K)
    ensures Get(PutEach(xs, sel), k).None? <==> NeverWritten(xs, sel, k)
    ensures Get(PutEach(xs, sel), k).Some? ==>
      exists i :: LastWrite(xs, sel, k, i) && Get(PutEach(xs, sel), k) == Some(sel(xs[i]).value.1)
  {
    if xs != [] {
      var n := |xs| - 1;
      var p := xs[..n];
      var x := xs[n];
      assert xs == p + [x];
      PutEachSnoc(p, x, sel);
      PutEachGet(p, sel, k);
      var r := Get(PutEach(xs, sel), k);
      if Writes(sel(x), k) {
        assert LastWrite(xs, sel, k, n);
      } else {
        assert r == Get(PutEach(p, sel), k);
        if r.Some? {
          var i :| LastWrite(p, sel, k, i) && r == Some(sel(p[i]).value.1);
          assert LastWrite(xs, sel, k, i);
        } else {
          forall i | 0 <= i < |xs| ensures !Writes(sel(xs[i]), k) {
            if i < n { assert xs[i] == p[i]; }
          }
        }
      }
    }
  }

  /** `list(dict.fromkeys(s))`: the distinct elements of `s` in order of first occurrence. */
  function Dedup<T(==)>(s: seq<T>): (r: seq<T>)
    ensures forall i :: 0 <= i < |r| ==> r[i] in s
    ensures forall i :: 0 <= i < |s| ==> s[i] in r
    ensures Distinct(r)
  {
    if s == [] then []
    else
      var r := Dedup(s[..|s| - 1]);
      if s[|s| - 1] in r then r else r + [s[|s| - 1]]
  }

  /** The keys that `PutEach` writes, in item order, repeats included. */
  function WrittenKeys<T, K, V>(xs: seq<T>, sel: T -> Option<(K, V)>): seq<K> {
    if xs == [] then []
    else
      var ks := WrittenKeys(xs[..|xs| - 1], sel);
      match sel(xs[|xs| - 1])
      case None => ks
      case Some(kv) => ks + [kv.0]
  }

  /** The dict's keys are the written keys in order of first write. */
  lemma {:induction false} PutEachKeys<T, K(!new), V>(xs: seq<T>, sel: T -> Option<(K, V)>)
    ensures Keys(PutEach(xs, sel)) == Dedup(WrittenKeys(xs, sel))
  {
    if xs != [] {
      PutEachKeys(xs[..|xs| - 1], sel);
    }
  }

  /** `if k not in d: d[k] = []` followed by `d[k].append(v)` */
  function Append<K(==,!new), V>(d: Dict<K, seq<V>>, k: K, v: V): Dict<K, seq<V>> {
    Put(d, k, Get(d, k).GetOr([]) + [v])
  }

  /** The grouping loop: each selected item appends its value to the list under its key. */
  function AppendEach<T, K(==,!new), V>(xs: seq<T>, sel: T -> Option<(K, V)>): Dict<K, seq<V>> {
    if xs == [] then []
    else
      var d := AppendEach(xs[..|xs| - 1], sel);
      match sel(xs[|xs| - 1])
      case None => d
      case Some(kv) => Append(d, kv.0, kv.1)
  }

  /** The values written under `k`, in item order. */
  function WrittenValues<T, K(==), V>(xs: seq<T>, sel: T -> Option<(K, V)>, k: K): seq<V> {
    if xs == [] then []
    else
      var vs := WrittenValues(xs[..|xs| - 1], sel, k);
      var o := sel(xs[|xs| - 1]);
      if Writes(o, k) then vs + [o.value.1] else vs
  }

  /**
   * Grouping keeps every value: the list under a key holds all values written to it,
   * in item order, and a key is present exactly when some item writes it.
   */
  lemma {:induction false} AppendEachGet<T, K(!new), V>(xs: seq<T>, sel: T -> Option<(K, V)>, k: K)
    ensures Get(AppendEach(xs, sel), k) ==
      if NeverWritten(xs, sel, k) then None else Some(WrittenValues(xs, sel, k))
  {
    if xs != [] {
      var n := |xs| - 1;
      var p := xs[..n];
      AppendEachGet(p, sel, k);
      if !NeverWritten(p, sel, k) {
        var i :| 0 <= i < n && Writes(sel(p[i]), k);
        assert xs[i] == p[i];
      }
      if NeverWritten(p, sel, k) && !Writes(sel(xs[n]), k) {
        forall i | 0 <= i < |xs| ensures !Writes(sel(xs[i]), k) {
          if i < n { assert xs[i] == p[i]; }
        }
      }
      if NeverWritten(p, sel, k) {
        WrittenValuesNone(p, sel, k);
      }
    }
  }

  lemma {:induction false} WrittenValuesNone<T, K(!new), V>(xs: seq<T>, sel: T -> Option<(K, V)>, k: K)
    requires NeverWritten(xs, sel, k)
    ensures WrittenValues(xs, sel, k) == []
  {
    if xs != [] {
      var p := xs[..|xs| - 1];
      assert NeverWritten(p, sel, k) by {
        forall i | 0 <= i < |p| ensures !Writes(sel(p[i]), k) { assert p[i] == xs[i]; }
      }
      WrittenValuesNone(p, sel, k);
    }
  }

  /** The grouped dict's keys are the written keys in order of first write. */
  lemma {:induction false} AppendEachKeys<T, K(!new), V>(xs: seq<T>, sel: T -> Option<(K, V)>)
    ensures Keys(AppendEach(xs, sel)) == Dedup(WrittenKeys(xs, sel))
  {
    if xs != [] {
      AppendEachKeys(xs[..|xs| - 1], sel);
    }
  }

  lemma AppendEachSnoc<T, K(!new), V>(xs: seq<T>, x: T, sel: T -> Option<(K, V)>)
    ensures AppendEach(xs + [x], sel) ==
      match sel(x) case None => AppendEach(xs, sel) case Some(kv) => Append(AppendEach(xs, sel), kv.0, kv.1)
  {
    assert (xs + [x])[..|xs|] == xs;
  }

  /** One more iteration of the loop `AppendEach` describes. */
  lemma AppendEachStep<T, K(!new), V>(xs: seq<T>, i: nat, sel: T -> Option<(K, V)>)
    requires i < |xs|
    ensures AppendEach(xs[..i + 1], sel) ==
      match sel(xs[i]) case None => AppendEach(xs[..i], sel) case Some(kv) => Append(AppendEach(xs[..i], sel), kv.0, kv.1)
  {
    assert xs[..i + 1] == xs[..i] + [xs[i]];
    AppendEachSnoc(xs[..i], xs[i], sel);
  }

  /** Two stores under one key leave the dict as the second store alone would. */
  lemma {:induction false} PutPut<K(!new), V>(d: Dict<K, V>, k: K, v1: V, v2: V)
    ensures Put(Put(d, k, v1), k, v2) == Put(d, k, v2)
  {
    if d != [] && d[0].0 != k {
      PutPut(d[1..], k, v1, v2);
    }
  }

  /** Some item of `xs` writes `v` under `k`. */
  ghost predicate WrittenBySome<T, K(!new), V>(xs: seq<T>, sel: T -> Option<(K, V)>, k: K, v: V) {
    exists i :: 0 <= i < |xs| && Writes(sel(xs[i]), k) && sel(xs[i]).value.1 == v
  }

  /** Every value written under `k` is the value some item of `xs` selects. */
  lemma {:induction false} WrittenValuesFrom<T, K(!new), V>(xs: seq<T>, sel: T -> Option<(K, V)>, k: K)
    ensures forall m :: 0 <= m < |WrittenValues(xs, sel, k)| ==> WrittenBySome(xs, sel, k, WrittenValues(xs, sel, k)[m])
  {
    if xs != [] {
      var n := |xs| - 1;
      var p := xs[..n];
      WrittenValuesFrom(p, sel, k);
      forall m | 0 <= m < |WrittenValues(xs, sel, k)| ensures WrittenBySome(xs, sel, k, WrittenValues(xs, sel, k)[m]) {
        if m < |WrittenValues(p, sel, k)| {
          assert WrittenBySome(p, sel, k, WrittenValues(p, sel, k)[m]);
          var i :| 0 <= i < |p| && Writes(sel(p[i]), k) && sel(p[i]).value.1 == WrittenValues(p, sel, k)[m];
          assert xs[i] == p[i];
        } else {
          assert Writes(sel(xs[n]), k);
        }
      }
    }
  }

  /** No item writes `k` exactly when nothing was written under it. */
  lemma {:induction false} NeverWrittenIff<T, K(!new), V>(xs: seq<T>, sel: T -> Option<(K, V)>, k: K)
    ensures NeverWritten(xs, sel, k) <==> WrittenValues(xs, sel, k) == []
  {
    if NeverWritten(xs, sel, k) {
      WrittenValuesNone(xs, sel, k);
    } else {
      var n := |xs| - 1;
      var p := xs[..n];
      if !Writes(sel(xs[n]), k) {
        var i :| 0 <= i < |xs| && Writes(sel(xs[i]), k);
        assert p[i] == xs[i];
        NeverWrittenIff(p, sel, k);
      }
    }
  }

  /** Writing two runs of items one after the other writes the values of both, in order. */
  lemma {:induction false} WrittenValuesAppend<T, K(!new), V>(xs: seq<T>, ys: seq<T>, sel: T -> Option<(K, V)>, k: K)
    ensures WrittenValues(xs + ys, sel, k) == WrittenValues(xs, sel, k) + WrittenValues(ys, sel, k)
  {
    if ys == [] {
      assert xs + ys == xs;
    } else {
      var n := |ys| - 1;
      WrittenValuesAppend(xs, ys[..n], sel, k);
      assert (xs + ys)[..|xs + ys| - 1] == xs + ys[..n];
    }
  }
}
