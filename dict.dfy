/** A JavaScript plain object with string keys, written as the list of its
    own properties in enumeration order (`Object.entries`). Assigning an
    existing key keeps its place; assigning a new key appends it. */
module Dict {
  import opened Wrappers

  type Dict<V> = seq<(string, V)>

  /** `Object.keys(d)`. */
  function Keys<V>(d: Dict<V>): (ks: seq<string>)
    ensures |ks| == |d|
    ensures forall i :: 0 <= i < |d| ==> ks[i] == d[i].0
  {
    seq(|d|, i requires 0 <= i < |d| => d[i].0)
  }

  /** A property name occurs once. */
  predicate UniqueKeys<V>(d: Dict<V>) {
    forall i, j :: 0 <= i < j < |d| ==> d[i].0 != d[j].0
  }

  /** `d[k]`, with `undefined` as `None`. */
  function Get<V>(d: Dict<V>, k: string): (r: Option<V>)
    ensures r.None? <==> forall i :: 0 <= i < |d| ==> d[i].0 != k
  {
    if d == [] then None
    else if d[0].0 == k then Some(d[0].1)
    else
      var r := Get(d[1..], k);
      assert forall i :: 1 <= i < |d| ==> d[i] == d[1..][i - 1];
      r
  }

  /** In an object with unique keys, looking up the key of any entry yields that entry's value. */
  lemma {:induction false} GetAt<V>(d: Dict<V>, i: nat)
    requires UniqueKeys(d) && i < |d|
    ensures Get(d, d[i].0) == Some(d[i].1)
  {
    if i > 0 {
      assert d[1..][i - 1] == d[i];
      GetAt(d[1..], i - 1);
    }
  }

  /** `ks.indexOf(k)`: the first position of `k`, or -1. */
  function IndexOf(ks: seq<string>, k: string): (i: int)
    ensures -1 <= i < |ks|
    ensures i >= 0 ==> ks[i] == k && forall j :: 0 <= j < i ==> ks[j] != k
    ensures i == -1 ==> forall j :: 0 <= j < |ks| ==> ks[j] != k
  {
    if ks == [] then -1
    else if ks[0] == k then 0
    else
      var i := IndexOf(ks[1..], k);
      if i == -1 then -1 else i + 1
  }

  /** How `Keys`, `Get` and `UniqueKeys` see one more entry in front. */
  lemma Cons<V>(x: (string, V), t: Dict<V>)
    ensures Keys([x] + t) == [x.0] + Keys(t)
    ensures Get([x] + t, x.0) == Some(x.1)
    ensures forall k :: k != x.0 ==> Get([x] + t, k) == Get(t, k)
    ensures UniqueKeys(t) && Get(t, x.0).None? ==> UniqueKeys([x] + t)
  {
    ConsKeys(x, t);
    ConsGet(x, t);
    ConsUnique(x, t);
  }

  lemma ConsKeys<V>(x: (string, V), t: Dict<V>)
    ensures Keys([x] + t) == [x.0] + Keys(t)
  {
    var d := [x] + t;
    assert forall i :: 1 <= i < |d| ==> d[i] == t[i - 1];
  }

  lemma ConsGet<V>(x: (string, V), t: Dict<V>)
    ensures Get([x] + t, x.0) == Some(x.1)
    ensures forall k :: k != x.0 ==> Get([x] + t, k) == Get(t, k)
  {
    assert ([x] + t)[1..] == t;
  }

  lemma ConsUnique<V>(x: (string, V), t: Dict<V>)
    ensures UniqueKeys(t) && Get(t, x.0).None? ==> UniqueKeys([x] + t)
  {
    var d := [x] + t;
    if UniqueKeys(t) && Get(t, x.0).None? {
      forall i, j | 0 <= i < j < |d|
        ensures d[i].0 != d[j].0
      {
        assert d[j] == t[j - 1];
        if i > 0 {
          assert d[i] == t[i - 1];
        }
      }
    }
  }

  /** The tail of an object with unique keys does not hold its first key. */
  lemma Uncons<V>(d: Dict<V>)
    requires UniqueKeys(d) && d != []
    ensures d == [d[0]] + d[1..]
    ensures UniqueKeys(d[1..])
    ensures Get(d[1..], d[0].0).None?
  {
  }

  /** `d[k] = v`: exactly key `k` changes. */
  function Put<V>(d: Dict<V>, k: string, v: V): (r: Dict<V>)
    requires UniqueKeys(d)
    ensures UniqueKeys(r)
    ensures Get(r, k) == Some(v)
    ensures forall k' :: k' != k ==> Get(r, k') == Get(d, k')
  {
    if d == [] then [(k, v)]
    else
      Uncons(d);
      Cons(d[0], d[1..]);
      if d[0].0 == k then
        Cons((k, v), d[1..]);
        [(k, v)] + d[1..]
      else
        var tail := Put(d[1..], k, v);
        Cons(d[0], tail);
        [d[0]] + tail
  }

  /** `d[k] = v` with a new key appends it. */
  lemma {:induction false} PutAppends<V>(d: Dict<V>, k: string, v: V)
    requires UniqueKeys(d) && Get(d, k).None?
    ensures Put(d, k, v) == d + [(k, v)]
  {
    if d != [] {
      Uncons(d);
      ConsGet(d[0], d[1..]);
      PutAppends(d[1..], k, v);
      assert d == [d[0]] + d[1..];
      assert [d[0]] + (d[1..] + [(k, v)]) == d + [(k, v)];
    }
  }

  /** `d[k] = v` with an existing key keeps every key in its place. */
  lemma {:induction false} PutKeepsKeys<V>(d: Dict<V>, k: string, v: V)
    requires UniqueKeys(d) && Get(d, k).Some?
    ensures Keys(Put(d, k, v)) == Keys(d)
  {
    Uncons(d);
    ConsGet(d[0], d[1..]);
    ConsKeys(d[0], d[1..]);
    var r := Put(d, k, v);
    if d[0].0 == k {
      ConsKeys((k, v), d[1..]);
    } else {
      PutKeepsKeys(d[1..], k, v);
      ConsKeys(d[0], Put(d[1..], k, v));
    }
  }

  /** `delete d[k]`: key `k` is gone and every other entry stays. */
  function Remove<V>(d: Dict<V>, k: string): (r: Dict<V>)
    requires UniqueKeys(d)
    ensures UniqueKeys(r)
    ensures Get(r, k) == None
    ensures forall k' :: k' != k ==> Get(r, k') == Get(d, k')
    ensures Get(d, k).None? ==> r == d
    ensures Get(d, k).Some? ==> |r| == |d| - 1
  {
    if d == [] then []
    else
      Uncons(d);
      Cons(d[0], d[1..]);
      if d[0].0 == k then d[1..]
      else
        var tail := Remove(d[1..], k);
        Cons(d[0], tail);
        [d[0]] + tail
  }

  /** Deleting a key other than the first keeps the first entry in front. */
  lemma RemoveUnfold<V>(d: Dict<V>, k: string)
    requires UniqueKeys(d) && d != [] && d[0].0 != k
    ensures UniqueKeys(d[1..])
    ensures Remove(d, k) == [d[0]] + Remove(d[1..], k)
  {
    Uncons(d);
  }

  /** Cutting position `i` out of a sequence, seen from its tail. */
  lemma CutAfterHead<T>(s: seq<T>, i: nat)
    requires 0 < i < |s|
    ensures [s[0]] + (s[1..][..i - 1] + s[1..][i..]) == s[..i] + s[i + 1..]
  {
    assert s[1..][..i - 1] == s[1..i];
    assert s[1..][i..] == s[i + 1..];
  }

  /** Deleting the key of entry `i` cuts that entry out: the entries before
      and after it keep their order, as they do in a JavaScript object. */
  lemma {:induction false} RemoveKeepsOrder<V>(d: Dict<V>, k: string, i: nat)
    requires UniqueKeys(d) && i < |d| && d[i].0 == k
    ensures Remove(d, k) == d[..i] + d[i + 1..]
  {
    if i == 0 {
      assert d[..i] + d[i + 1..] == d[1..];
    } else {
      assert d[0].0 != d[i].0;
      RemoveUnfold(d, k);
      RemoveKeepsOrder(d[1..], k, i - 1);
      CutAfterHead(d, i);
    }
  }
}
