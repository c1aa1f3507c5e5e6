/**
  A Python `dict` with string keys, as an association list in insertion order.
  Assigning to a key that is present replaces its value in place; assigning to
  a new key appends it. Iteration (`keys()`, `values()`, `items()`) follows
  the list order.
 */
module OrderedDict {
  import opened Seqs

  datatype Option<T> = None | Some(value: T)

  type Dict<V> = seq<(string, V)>

  function Keys<V>(d: Dict<V>): (ks: seq<string>)
    ensures |ks| == |d| && forall i :: 0 <= i < |d| ==> ks[i] == d[i].0
  {
    seq(|d|, i requires 0 <= i < |d| => d[i].0)
  }

  function Values<V>(d: Dict<V>): (vs: seq<V>)
    ensures |vs| == |d| && forall i :: 0 <= i < |d| ==> vs[i] == d[i].1
  {
    seq(|d|, i requires 0 <= i < |d| => d[i].1)
  }

  /** `k in d`: some stored pair has key `k`. */
  predicate HasKey<V>(d: Dict<V>, k: string): (b: bool)
    ensures b <==> exists i :: 0 <= i < |d| && d[i].0 == k
  {
    k in Keys(d)
  }

  predicate UniqueKeys<V>(d: Dict<V>) {
    NoDuplicates(Keys(d))
  }

  /** `d.get(k)`: the value stored under `k`, if any. */
  function Get<V>(d: Dict<V>, k: string): (r: Option<V>)
    ensures r.Some? <==> HasKey(d, k)
    decreases |d|
  {
    if d == [] then None
    else if d[0].0 == k then Some(d[0].1)
    else
      assert forall i :: 1 <= i < |d| ==> Keys(d)[i] == Keys(d[1..])[i - 1];
      Get(d[1..], k)
  }

  /** `d.get(k, default)`: the stored value when `k` is present, the default otherwise. */
  function GetOr<V>(d: Dict<V>, k: string, default: V): (r: V)
    ensures HasKey(d, k) ==> Get(d, k) == Some(r)
    ensures !HasKey(d, k) ==> r == default
  {
    match Get(d, k)
    case Some(v) => v
    case None => default
  }

  /** `d[k] = v`: the pair is stored, and the dictionary grows by one entry exactly when
      `k` was not yet a key. */
  function Set<V>(d: Dict<V>, k: string, v: V): (r: Dict<V>)
    ensures (k, v) in r
    ensures |r| == if HasKey(d, k) then |d| else |d| + 1
    decreases |d|
  {
    if d == [] then [(k, v)]
    else if d[0].0 == k then [(k, v)] + d[1..]
    else [d[0]] + Set(d[1..], k, v)
  }

  /** In a dictionary with unique keys, the stored pair at a position is what `Get` finds. */
  lemma {:induction false} GetAt<V>(d: Dict<V>, i: nat)
    requires UniqueKeys(d) && i < |d|
    ensures Get(d, d[i].0) == Some(d[i].1)
    decreases |d|
  {
    if i > 0 {
      assert Keys(d)[0] != Keys(d)[i];
      assert Keys(d[1..]) == Keys(d)[1..];
      GetAt(d[1..], i - 1);
    }
  }

  /** After `d[k] = v`, looking up `k` gives `v` and every other key is unaffected. */
  lemma {:induction false} SetGet<V>(d: Dict<V>, k: string, v: V, k': string)
    ensures Get(Set(d, k, v), k') == if k' == k then Some(v) else Get(d, k')
    decreases |d|
  {
    if d != [] && d[0].0 != k {
      if d[0].0 != k' {
        SetGet(d[1..], k, v, k');
      }
    }
  }

  /** Assignment keeps the key order and appends a new key at the end. */
  lemma {:induction false} SetKeys<V>(d: Dict<V>, k: string, v: V)
    ensures Keys(Set(d, k, v)) == if HasKey(d, k) then Keys(d) else Keys(d) + [k]
    decreases |d|
  {
    if d == [] {
      assert Keys(Set(d, k, v)) == [k];
    } else if d[0].0 == k {
      assert Keys(Set(d, k, v)) == Keys(d);
    } else {
      SetKeys(d[1..], k, v);
      assert Keys(d) == [d[0].0] + Keys(d[1..]);
      assert HasKey(d, k) == HasKey(d[1..], k);
      assert Keys(Set(d, k, v)) == [d[0].0] + Keys(Set(d[1..], k, v));
    }
  }

  /** Assigning to a new key appends the pair. */
  lemma {:induction false} SetFresh<V>(d: Dict<V>, k: string, v: V)
    requires !HasKey(d, k)
    ensures Set(d, k, v) == d + [(k, v)]
    decreases |d|
  {
    if d != [] {
      assert Keys(d) == [d[0].0] + Keys(d[1..]);
      SetFresh(d[1..], k, v);
    }
  }

  /** After `d[k] = v` every stored value is `v` or was stored before. */
  lemma {:induction false} SetValues<V>(d: Dict<V>, k: string, v: V)
    ensures forall x :: x in Values(Set(d, k, v)) ==> x == v || x in Values(d)
    decreases |d|
  {
    if d != [] && d[0].0 != k {
      SetValues(d[1..], k, v);
      assert Values(d) == [d[0].1] + Values(d[1..]);
      assert Values(Set(d, k, v)) == [d[0].1] + Values(Set(d[1..], k, v));
    }
  }

  /** Assignment never creates a duplicate key. */
  lemma SetUnique<V>(d: Dict<V>, k: string, v: V)
    requires UniqueKeys(d)
    ensures UniqueKeys(Set(d, k, v))
  {
    SetKeys(d, k, v);
  }
}
