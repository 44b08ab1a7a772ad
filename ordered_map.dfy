/** A Python `dict` as the program uses it: keys kept in insertion order, an
    assignment to an existing key replacing its value in place. */
module OrderedMap {
  import opened Basics

  type Dict<K, V> = seq<(K, V)>

  /** `list(d.keys())` */
  function Keys<K, V>(d: Dict<K, V>): (ks: seq<K>)
    ensures |ks| == |d|
    ensures forall i :: 0 <= i < |d| ==> ks[i] == d[i].0
  {
    if d == [] then [] else [d[0].0] + Keys(d[1..])
  }

  /** `list(d.values())` */
  function Values<K, V>(d: Dict<K, V>): (vs: seq<V>)
    ensures |vs| == |d|
    ensures forall i :: 0 <= i < |d| ==> vs[i] == d[i].1
  {
    if d == [] then [] else [d[0].1] + Values(d[1..])
  }

  ghost predicate Distinct<K>(ks: seq<K>) {
    forall i, j :: 0 <= i < j < |ks| ==> ks[i] != ks[j]
  }

  /** A dict value never holds a key twice. */
  ghost predicate Valid<K, V>(d: Dict<K, V>) {
    Distinct(Keys(d))
  }

  function KeySet<K, V>(d: Dict<K, V>): set<K> {
    set k | k in Keys(d)
  }

  /** `d.get(k)`: the value stored under `k`, if any. */
  function Get<K(==), V>(d: Dict<K, V>, k: K): (r: Option<V>)
    ensures r.Some? <==> k in Keys(d)
  {
    if d == [] then None
    else if d[0].0 == k then Some(d[0].1)
    else Get(d[1..], k)
  }

  /** `d[k] = v` */
  function Put<K(==), V>(d: Dict<K, V>, k: K, v: V): Dict<K, V> {
    if d == [] then [(k, v)]
    else if d[0].0 == k then [(k, v)] + d[1..]
    else [d[0]] + Put(d[1..], k, v)
  }

  /** In a dict without repeated keys, looking up the key of an entry finds that entry's value. */
  lemma {:induction false} GetEntry<K, V>(d: Dict<K, V>, i: nat)
    requires Valid(d) && i < |d|
    ensures Get(d, d[i].0) == Some(d[i].1)
  {
    if i > 0 {
      var ks := Keys(d);
      assert ks[0] != ks[i];
      assert Keys(d[1..]) == ks[1..];
      GetEntry(d[1..], i - 1);
    }
  }

  /** Assigning a present key keeps the key order and changes that one value; a
      new key goes at the end. Every other key keeps its value. */
  lemma {:induction false} PutSpec<K, V>(d: Dict<K, V>, k: K, v: V)
    ensures k in Keys(d) ==> Keys(Put(d, k, v)) == Keys(d)
    ensures k !in Keys(d) ==> Keys(Put(d, k, v)) == Keys(d) + [k]
    ensures Get(Put(d, k, v), k) == Some(v)
    ensures forall k' :: k' != k ==> Get(Put(d, k, v), k') == Get(d, k')
  {
    if d != [] && d[0].0 != k {
      PutSpec(d[1..], k, v);
      assert Keys(d) == [d[0].0] + Keys(d[1..]);
      var p := Put(d, k, v);
      assert p == [d[0]] + Put(d[1..], k, v);
      assert p[1..] == Put(d[1..], k, v);
      assert Keys(p) == [d[0].0] + Keys(Put(d[1..], k, v));
    } else if d != [] {
      assert Keys(d) == [k] + Keys(d[1..]);
      assert Keys(Put(d, k, v)) == [k] + Keys(d[1..]);
    }
  }

  lemma {:induction false} PutKeepsValid<K, V>(d: Dict<K, V>, k: K, v: V)
    requires Valid(d)
    ensures Valid(Put(d, k, v))
    ensures KeySet(Put(d, k, v)) == KeySet(d) + {k}
  {
    PutSpec(d, k, v);
  }

  /** Every entry after an assignment is the assigned one or an entry from before. */
  lemma {:induction false} PutEntries<K, V>(d: Dict<K, V>, k: K, v: V)
    ensures forall e :: e in Put(d, k, v) ==> e == (k, v) || e in d
  {
    if d != [] && d[0].0 != k {
      PutEntries(d[1..], k, v);
      assert Put(d, k, v) == [d[0]] + Put(d[1..], k, v);
    }
  }

  /** Assigning a new key appends one entry. */
  lemma {:induction false} PutNew<K, V>(d: Dict<K, V>, k: K, v: V)
    requires k !in Keys(d)
    ensures Put(d, k, v) == d + [(k, v)]
  {
    if d != [] {
      assert Keys(d) == [d[0].0] + Keys(d[1..]);
      PutNew(d[1..], k, v);
      assert d == [d[0]] + d[1..];
    }
  }

  lemma {:induction false} KeysPrefix<K, V>(d: Dict<K, V>, n: nat)
    requires n <= |d|
    ensures Keys(d[..n]) == Keys(d)[..n]
  {
  }

  lemma {:induction false} KeysSnoc<K, V>(d: Dict<K, V>, e: (K, V))
    ensures Keys(d + [e]) == Keys(d) + [e.0]
  {
  }

  /** Assigning a present key replaces that entry where it stands. */
  lemma {:induction false} PutExisting<K, V>(d: Dict<K, V>, i: nat, v: V)
    requires Valid(d) && i < |d|
    ensures Put(d, d[i].0, v) == d[i := (d[i].0, v)]
  {
    var ks := Keys(d);
    forall j | 0 <= j < i ensures d[j].0 != d[i].0 {
      assert ks[j] != ks[i];
    }
    PutFirst(d, d[i].0, i, v);
  }

  /** The assignment replaces the first entry holding the key. */
  lemma {:induction false} PutFirst<K, V>(d: Dict<K, V>, k: K, i: nat, v: V)
    requires i < |d| && d[i].0 == k
    requires forall j :: 0 <= j < i ==> d[j].0 != k
    ensures Put(d, k, v) == d[i := (k, v)]
    decreases i
  {
    if i > 0 {
      PutFirst(d[1..], k, i - 1, v);
      assert d[i := (k, v)] == [d[0]] + d[1..][i - 1 := (k, v)];
    }
  }

  /** The last entry of a dict without repeated keys holds a key the others do
      not, and the others hold no repeated key either. */
  lemma {:induction false} LastKeyNew<K, V>(d: Dict<K, V>)
    requires d != [] && Valid(d)
    ensures d[|d| - 1].0 !in Keys(d[..|d| - 1])
    ensures Valid(d[..|d| - 1])
  {
    var init := d[..|d| - 1];
    assert Keys(init) == Keys(d)[..|init|];
    forall i | 0 <= i < |init| ensures init[i].0 != d[|d| - 1].0 {
      assert Keys(d)[i] != Keys(d)[|init|];
    }
  }
}
