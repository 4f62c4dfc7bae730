/** Python dictionaries as association lists.

    A Python `dict` remembers insertion order: assigning to an existing key
    replaces its value in place, assigning to a new key appends it. The model
    keeps the entries as a sequence of pairs with distinct keys.
 */
module Assoc {

  import opened Wrappers

  type Dict<K, V> = seq<(K, V)>

  function Keys<K, V>(d: Dict<K, V>): (r: seq<K>)
    ensures |r| == |d|
    ensures forall i :: 0 <= i < |d| ==> r[i] == d[i].0
  {
    seq(|d|, i requires 0 <= i < |d| => d[i].0)
  }

  predicate DistinctKeys<K(==), V>(d: Dict<K, V>) {
    forall i, j :: 0 <= i < j < |d| ==> d[i].0 != d[j].0
  }

  predicate HasKey<K(==), V>(d: Dict<K, V>, k: K) {
    exists i :: 0 <= i < |d| && d[i].0 == k
  }

  /** Position of the first entry with key `k`. */
  function IndexOf<K(==), V>(d: Dict<K, V>, k: K): (i: nat)
    requires HasKey(d, k)
    ensures i < |d| && d[i].0 == k
    ensures forall j :: 0 <= j < i ==> d[j].0 != k
  {
    if d[0].0 == k then 0
    else
      assert HasKey(d[1..], k) by {
        var j :| 0 <= j < |d| && d[j].0 == k;
        assert d[1..][j - 1].0 == k;
      }
      1 + IndexOf(d[1..], k)
  }

  /** `d.get(k)`. */
  function Get<K(==), V>(d: Dict<K, V>, k: K): (r: Option<V>)
    ensures r.Some? <==> HasKey(d, k)
  {
    if HasKey(d, k) then Some(d[IndexOf(d, k)].1) else None
  }

  /** `d[k] = v`: an existing key keeps its position, a new key goes last. */
  function Put<K(==), V>(d: Dict<K, V>, k: K, v: V): (r: Dict<K, V>)
    ensures |r| == if HasKey(d, k) then |d| else |d| + 1
    ensures HasKey(r, k)
  {
    if HasKey(d, k) then
      var i := IndexOf(d, k);
      assert d[i := (k, v)][i].0 == k;
      d[i := (k, v)]
    else
      assert (d + [(k, v)])[|d|].0 == k;
      d + [(k, v)]
  }

  /** Assignment keeps the keys distinct, makes `k` map to `v`, leaves every
      other key's value alone, and never moves an existing key. */
  lemma PutSpec<K, V>(d: Dict<K, V>, k: K, v: V)
    requires DistinctKeys(d)
    ensures DistinctKeys(Put(d, k, v))
    ensures Get(Put(d, k, v), k) == Some(v)
    ensures forall k' :: k' != k ==> Get(Put(d, k, v), k') == Get(d, k')
    ensures HasKey(d, k) ==> Keys(Put(d, k, v)) == Keys(d)
  {
    var r := Put(d, k, v);
    forall k' | k' != k
      ensures Get(r, k') == Get(d, k')
    {
      assert forall j :: 0 <= j < |d| ==> (r[j].0 == k' <==> d[j].0 == k');
      if HasKey(d, k') {
        var i := IndexOf(d, k');
        assert r[i].0 == k';
        assert HasKey(r, k');
        assert IndexOf(r, k') == i;
      }
    }
    var i := IndexOf(r, k);
    if HasKey(d, k) {
      assert i == IndexOf(d, k);
    } else {
      assert i == |d|;
    }
  }

  /** With distinct keys, looking up the key of any entry finds that entry. */
  lemma GetAt<K, V>(d: Dict<K, V>, i: nat)
    requires DistinctKeys(d) && i < |d|
    ensures Get(d, d[i].0) == Some(d[i].1)
  {
    assert HasKey(d, d[i].0);
    var j := IndexOf(d, d[i].0);
    assert j == i;
  }

  /** Looking up in a dictionary with one entry in front. */
  lemma GetCons<K, V>(x: (K, V), d: Dict<K, V>, k: K)
    ensures Get([x] + d, k) == if x.0 == k then Some(x.1) else Get(d, k)
  {
    var e := [x] + d;
    if x.0 != k {
      assert forall j :: 0 <= j < |d| ==> e[j + 1] == d[j];
      if HasKey(d, k) {
        var i := IndexOf(d, k);
        assert e[i + 1].0 == k;
        assert IndexOf(e, k) == i + 1;
      } else {
        forall j | 0 <= j < |e|
          ensures e[j].0 != k
        {
          if j > 0 {
            assert e[j] == d[j - 1];
          }
        }
      }
    } else {
      assert e[0].0 == k;
    }
  }

  /** Folding a list of key/value pairs into an empty dictionary with `Put`. */
  function FromPairs<K(==), V>(ps: seq<(K, V)>): (r: Dict<K, V>)
    ensures DistinctKeys(r)
  {
    if |ps| == 0 then []
    else
      var prev := FromPairs(ps[..|ps| - 1]);
      PutSpec(prev, ps[|ps| - 1].0, ps[|ps| - 1].1);
      Put(prev, ps[|ps| - 1].0, ps[|ps| - 1].1)
  }

  /** Building a dictionary from pairs with distinct keys keeps them as they are. */
  lemma {:induction false} FromPairsDistinct<K, V>(ps: seq<(K, V)>)
    requires DistinctKeys(ps)
    ensures FromPairs(ps) == ps
  {
    if |ps| > 0 {
      var init := ps[..|ps| - 1];
      FromPairsDistinct(init);
      assert !HasKey(init, ps[|ps| - 1].0);
      assert init + [ps[|ps| - 1]] == ps;
    }
  }

  /** A key of no pair is not in the dictionary built from the pairs. */
  lemma {:induction false} FromPairsMissing<K, V>(ps: seq<(K, V)>, k: K)
    requires forall i :: 0 <= i < |ps| ==> ps[i].0 != k
    ensures Get(FromPairs(ps), k) == None
  {
    if |ps| > 0 {
      var init, last := ps[..|ps| - 1], ps[|ps| - 1];
      FromPairsMissing(init, k);
      PutSpec(FromPairs(init), last.0, last.1);
    }
  }

  /** The dictionary built from pairs maps each key to the value of its LAST
      pair. */
  lemma {:induction false} FromPairsLast<K, V>(ps: seq<(K, V)>, i: nat)
    requires i < |ps|
    requires forall j :: i < j < |ps| ==> ps[j].0 != ps[i].0
    ensures Get(FromPairs(ps), ps[i].0) == Some(ps[i].1)
  {
    var init, last := ps[..|ps| - 1], ps[|ps| - 1];
    PutSpec(FromPairs(init), last.0, last.1);
    if i < |ps| - 1 {
      assert init[i] == ps[i];
      FromPairsLast(init, i);
    }
  }
}
