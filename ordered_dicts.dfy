/**
 * Python dictionaries as the deployment tools use them: entries kept in insertion order,
 * assignment to an existing key keeps its place, and `{**a, **b}` lets `b` override `a`.
 */
module OrderedDicts {
  import opened Wrappers

  /** A dict's entries in iteration order */
  type Dict<K(==), V> = seq<(K, V)>

  /** No key appears twice, as in every Python dict */
  predicate DistinctKeys<K(==), V>(d: Dict<K, V>) {
    forall i, j :: 0 <= i < j < |d| ==> d[i].0 != d[j].0
  }

  /** `list(d.keys())` */
  function Keys<K(==), V>(d: Dict<K, V>): (ks: seq<K>)
    ensures |ks| == |d| && forall i :: 0 <= i < |d| ==> ks[i] == d[i].0
  {
    seq(|d|, i requires 0 <= i < |d| => d[i].0)
  }

  /** Where key `k` sits, if it is present */
  function IndexOf<K(==), V>(d: Dict<K, V>, k: K): (r: Option<nat>)
    ensures r.Some? ==> r.value < |d| && d[r.value].0 == k && forall j :: 0 <= j < r.value ==> d[j].0 != k
    ensures r.None? ==> forall j :: 0 <= j < |d| ==> d[j].0 != k
  {
    if d == [] then None
    else if d[0].0 == k then Some(0)
    else
      match IndexOf(d[1..], k)
      case None => None
      case Some(i) => Some(i + 1)
  }

  /** `d.get(k)`, with None for a missing key */
  function Get<K(==), V>(d: Dict<K, V>, k: K): (r: Option<V>)
    ensures r.Some? <==> k in Keys(d)
  {
    match IndexOf(d, k)
    case None => None
    case Some(i) => Some(d[i].1)
  }

  /** Looking up a key in a dict with one more entry at the front */
  lemma GetCons<K, V>(e: (K, V), d: Dict<K, V>, k: K)
    ensures Get([e] + d, k) == if e.0 == k then Some(e.1) else Get(d, k)
  {
    var r := [e] + d;
    assert r[1..] == d;
    if e.0 != k {
      match IndexOf(d, k)
      case None =>
      case Some(i) => assert IndexOf(r, k) == Some(i + 1);
    }
  }

  /** `k in d` */
  predicate HasKey<K(==), V>(d: Dict<K, V>, k: K) {
    Get(d, k).Some?
  }

  /** `d[k] = v`: an existing key keeps its place, a new key goes last */
  function Put<K(==), V>(d: Dict<K, V>, k: K, v: V): (r: Dict<K, V>)
    ensures Keys(r) == if k in Keys(d) then Keys(d) else Keys(d) + [k]
  {
    match IndexOf(d, k)
    case Some(i) => d[i := (k, v)]
    case None => d + [(k, v)]
  }

  /** After `d[k] = v`, `k` maps to `v` and every other key to what it mapped to before. */
  lemma PutGet<K, V>(d: Dict<K, V>, k: K, v: V, k': K)
    ensures Get(Put(d, k, v), k') == if k' == k then Some(v) else Get(d, k')
  {
    var r := Put(d, k, v);
    match IndexOf(d, k)
    case Some(i) =>
      if k' != k {
        match IndexOf(d, k')
        case None =>
        case Some(j) => assert IndexOf(r, k') == Some(j);
      } else {
        assert IndexOf(r, k) == Some(i);
      }
    case None =>
      assert r == d + [(k, v)];
      assert forall j :: 0 <= j < |d| ==> r[j] == d[j];
      if k' != k {
        match IndexOf(d, k')
        case None =>
          assert IndexOf(r, k') == None;
        case Some(j) => assert IndexOf(r, k') == Some(j);
      } else {
        assert r[|d|].0 == k;
        assert IndexOf(r, k) == Some(|d|);
      }
  }

  /** Assignment keeps a dict free of duplicate keys. */
  lemma PutDistinct<K, V>(d: Dict<K, V>, k: K, v: V)
    requires DistinctKeys(d)
    ensures DistinctKeys(Put(d, k, v))
  {
    var r := Put(d, k, v);
    assert forall i :: 0 <= i < |r| ==> r[i].0 == Keys(r)[i];
    assert forall i :: 0 <= i < |d| ==> d[i].0 == Keys(d)[i];
  }

  /** Looking up a key in a dict with one more entry at the end */
  lemma GetSnoc<K, V>(d: Dict<K, V>, e: (K, V), k: K)
    ensures Get(d + [e], k) == if k in Keys(d) then Get(d, k) else if e.0 == k then Some(e.1) else None
  {
    var r := d + [e];
    assert forall j :: 0 <= j < |d| ==> r[j] == d[j];
    match IndexOf(d, k)
    case Some(i) => assert IndexOf(r, k) == Some(i);
    case None =>
      assert k !in Keys(d);
      assert forall j :: 0 <= j < |d| ==> d[j].0 != k by {
        assert forall j :: 0 <= j < |d| ==> Keys(d)[j] == d[j].0;
      }
      if e.0 == k {
        assert r[|d|].0 == k;
        assert IndexOf(r, k) == Some(|d|);
      } else {
        assert IndexOf(r, k) == None;
      }
  }

  /** `{**d, **e}`: the entries of `e` assigned into `d` one after another */
  function PutAll<K(==), V>(d: Dict<K, V>, e: Dict<K, V>): Dict<K, V>
    decreases |e|
  {
    if e == [] then d else Put(PutAll(d, e[..|e| - 1]), e[|e| - 1].0, e[|e| - 1].1)
  }

  /** Without its last entry a dict keeps distinct keys, none of them the last entry's key. */
  lemma DistinctInit<K, V>(e: Dict<K, V>)
    requires DistinctKeys(e) && e != []
    ensures var n := |e| - 1;
      DistinctKeys(e[..n]) && e[n].0 !in Keys(e[..n]) && Keys(e) == Keys(e[..n]) + [e[n].0]
  {
    var n := |e| - 1;
    var init := e[..n];
    forall i, j | 0 <= i < j < |init| ensures init[i].0 != init[j].0 {
      assert init[i] == e[i] && init[j] == e[j];
    }
  }

  /** In `{**d, **e}` a key of `e` takes its value from `e`; any other key keeps its value in `d`. */
  lemma {:induction false} PutAllGet<K, V>(d: Dict<K, V>, e: Dict<K, V>, k: K)
    requires DistinctKeys(e)
    ensures Get(PutAll(d, e), k) == if k in Keys(e) then Get(e, k) else Get(d, k)
    decreases |e|
  {
    if e != [] {
      var n := |e| - 1;
      var init := e[..n];
      assert e == init + [e[n]];
      DistinctInit(e);
      PutAllGet(d, init, k);
      PutGet(PutAll(d, init), e[n].0, e[n].1, k);
      GetSnoc(init, e[n], k);
    }
  }

  /** `{**d, **e}` leaves a key that `e` does not mention as it is in `d`. */
  lemma {:induction false} PutAllOther<K, V>(d: Dict<K, V>, e: Dict<K, V>, k: K)
    requires k !in Keys(e)
    ensures Get(PutAll(d, e), k) == Get(d, k)
    decreases |e|
  {
    if e != [] {
      var n := |e| - 1;
      assert Keys(e) == Keys(e[..n]) + [e[n].0];
      PutAllOther(d, e[..n], k);
      PutGet(PutAll(d, e[..n]), e[n].0, e[n].1, k);
    }
  }

  /** Assigning distinct keys one after another into an empty dict rebuilds the same entries. */
  lemma {:induction false} PutAllFresh<K, V>(e: Dict<K, V>)
    requires DistinctKeys(e)
    ensures PutAll([], e) == e
    decreases |e|
  {
    if e != [] {
      var n := |e| - 1;
      var init := e[..n];
      assert e == init + [e[n]];
      DistinctInit(e);
      PutAllFresh(init);
      assert IndexOf(init, e[n].0) == None;
    }
  }

  /** The keys of `{**d, **e}` are those of `d` and those of `e`. */
  lemma {:induction false} PutAllKeys<K, V>(d: Dict<K, V>, e: Dict<K, V>, k: K)
    ensures HasKey(PutAll(d, e), k) <==> HasKey(d, k) || HasKey(e, k)
    decreases |e|
  {
    if e != [] {
      var n := |e| - 1;
      var init := e[..n];
      assert e == init + [e[n]];
      PutAllKeys(d, init, k);
      PutGet(PutAll(d, init), e[n].0, e[n].1, k);
      GetSnoc(init, e[n], k);
    }
  }

  lemma {:induction false} PutAllDistinct<K, V>(d: Dict<K, V>, e: Dict<K, V>)
    requires DistinctKeys(d)
    ensures DistinctKeys(PutAll(d, e))
    decreases |e|
  {
    if e != [] {
      PutAllDistinct(d, e[..|e| - 1]);
      PutDistinct(PutAll(d, e[..|e| - 1]), e[|e| - 1].0, e[|e| - 1].1);
    }
  }
}
