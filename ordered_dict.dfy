/** Python's `dict` as the scripts use it: keys kept in first-insertion
    order, and `d[k] = v` on a present key replaces the value in place. */
module OrderedDict {
  import opened Wrappers

  /** Key/value pairs in insertion order. */
  type Dict<K, V> = seq<(K, V)>

  function Keys<K, V>(d: Dict<K, V>): seq<K>
  {
    seq(|d|, i requires 0 <= i < |d| => d[i].0)
  }

  ghost predicate UniqueKeys<K, V>(d: Dict<K, V>)
  {
    forall i, j :: 0 <= i < j < |d| ==> d[i].0 != d[j].0
  }

  /** `d.get(k)`. */
  function Get<K(==), V>(d: Dict<K, V>, k: K): (r: Option<V>)
    ensures r.None? <==> k !in Keys(d)
  {
    if |d| == 0 then None
    else if d[0].0 == k then
      assert Keys(d)[0] == k;
      Some(d[0].1)
    else
      assert Keys(d) == [d[0].0] + Keys(d[1..]);
      Get(d[1..], k)
  }

  /** `d[k] = v`: a present key keeps its position and gets the new value,
      a new key goes at the end. */
  function Put<K(==), V>(d: Dict<K, V>, k: K, v: V): Dict<K, V>
  {
    if |d| == 0 then [(k, v)]
    else if d[0].0 == k then [(k, v)] + d[1..]
    else [d[0]] + Put(d[1..], k, v)
  }

  /** `d[k] = v` keeps the key order, adding a new key at the end. */
  lemma {:induction false} PutKeys<K(!new), V>(d: Dict<K, V>, k: K, v: V)
    ensures k in Keys(d) ==> Keys(Put(d, k, v)) == Keys(d)
    ensures k !in Keys(d) ==> Keys(Put(d, k, v)) == Keys(d) + [k]
  {
    if |d| > 0 {
      var tail := Keys(d[1..]);
      assert Keys(d) == [d[0].0] + tail;
      if d[0].0 == k {
        assert Keys(Put(d, k, v)) == [k] + tail;
      } else {
        var r := Put(d[1..], k, v);
        PutKeys(d[1..], k, v);
        assert Put(d, k, v) == [d[0]] + r;
        assert Keys([d[0]] + r) == [d[0].0] + Keys(r);
        assert k in Keys(d) <==> k in tail;
        if k !in tail {
          assert [d[0].0] + (tail + [k]) == Keys(d) + [k];
        }
      }
    }
  }

  /** After `d[k] = v`, `k` maps to `v` and every other key to what it
      mapped to before. */
  lemma {:induction false} PutGet<K(!new), V>(d: Dict<K, V>, k: K, v: V, k': K)
    ensures Get(Put(d, k, v), k') == if k' == k then Some(v) else Get(d, k')
  {
    if |d| > 0 && d[0].0 != k {
      PutGet(d[1..], k, v, k');
    }
  }

  /** `d[k] = v` keeps the keys unique. */
  lemma PutUnique<K(!new), V>(d: Dict<K, V>, k: K, v: V)
    requires UniqueKeys(d)
    ensures UniqueKeys(Put(d, k, v))
  {
    var r := Put(d, k, v);
    PutKeys(d, k, v);
    assert forall i :: 0 <= i < |r| ==> r[i].0 == Keys(r)[i];
    assert forall i :: 0 <= i < |d| ==> d[i].0 == Keys(d)[i];
  }

  /** Every pair of `d[k] = v` is the new pair or was already in `d`. */
  lemma {:induction false} PutPairs<K(!new), V>(d: Dict<K, V>, k: K, v: V)
    ensures forall p :: p in Put(d, k, v) ==> p == (k, v) || p in d
  {
    if |d| > 0 && d[0].0 != k {
      PutPairs(d[1..], k, v);
      assert Put(d, k, v) == [d[0]] + Put(d[1..], k, v);
    }
  }

  /** `{k: v for (k, v) in ps}`: later pairs overwrite earlier ones. */
  function FromPairs<K(==,!new), V>(ps: seq<(K, V)>): Dict<K, V>
  {
    if |ps| == 0 then []
    else Put(FromPairs(ps[..|ps| - 1]), ps[|ps| - 1].0, ps[|ps| - 1].1)
  }

  /** The keys of `xs` without repeats, each at its first occurrence. */
  function Distinct<K(==)>(xs: seq<K>): seq<K>
  {
    if |xs| == 0 then []
    else
      var d := Distinct(xs[..|xs| - 1]);
      if xs[|xs| - 1] in d then d else d + [xs[|xs| - 1]]
  }

  /** A dict built from pairs has each key once, in first-occurrence order. */
  lemma {:induction false} FromPairsKeys<K(!new), V>(ps: seq<(K, V)>)
    ensures Keys(FromPairs(ps)) == Distinct(Keys(ps))
    ensures UniqueKeys(FromPairs(ps))
  {
    if |ps| > 0 {
      var init := ps[..|ps| - 1];
      FromPairsKeys(init);
      PutKeys(FromPairs(init), ps[|ps| - 1].0, ps[|ps| - 1].1);
      PutUnique(FromPairs(init), ps[|ps| - 1].0, ps[|ps| - 1].1);
      assert Keys(ps)[..|ps| - 1] == Keys(init);
    }
  }

  /** Looking a key up in a dict built from pairs gives the value of the
      LAST pair with that key, and nothing when no pair has it. */
  lemma {:induction false} FromPairsGet<K(!new), V>(ps: seq<(K, V)>, k: K)
    ensures Get(FromPairs(ps), k).None? <==> forall i :: 0 <= i < |ps| ==> ps[i].0 != k
    ensures forall i :: 0 <= i < |ps| && ps[i].0 == k && (forall j :: i < j < |ps| ==> ps[j].0 != k)
                    ==> Get(FromPairs(ps), k) == Some(ps[i].1)
  {
    if |ps| > 0 {
      var init := ps[..|ps| - 1];
      FromPairsGet(init, k);
      PutGet(FromPairs(init), ps[|ps| - 1].0, ps[|ps| - 1].1, k);
      forall i | 0 <= i < |ps| - 1 ensures init[i] == ps[i] { }
    }
  }
}
