/** Ruby's Hash from symbols to values, as URL generation uses it: an
    association list that remembers insertion order (which decides the
    order of a generated query string), each key at most once. */
module RubyHash {
  import opened Wrappers

  type Hash = seq<(string, string)>

  /** Each key occurs once, as in every Ruby Hash. */
  predicate Unique(h: Hash) {
    forall i, j :: 0 <= i < j < |h| ==> h[i].0 != h[j].0
  }

  function Keys(h: Hash): (ks: seq<string>)
    ensures |ks| == |h|
    ensures forall i :: 0 <= i < |h| ==> ks[i] == h[i].0
  {
    if h == [] then [] else [h[0].0] + Keys(h[1..])
  }

  /** The contents, without the order; the first entry for a key wins. */
  function AsMap(h: Hash): map<string, string> {
    if h == [] then map[] else AsMap(h[1..])[h[0].0 := h[0].1]
  }

  /** `h[k]`: nil when k is not a key. */
  function Get(h: Hash, k: string): (r: Option<string>)
    ensures r.None? ==> forall i :: 0 <= i < |h| ==> h[i].0 != k
  {
    if h == [] then None else if h[0].0 == k then Some(h[0].1) else Get(h[1..], k)
  }

  /** `h[k] = v`: an existing key keeps its place, a new key goes last. */
  function Store(h: Hash, k: string, v: string): (r: Hash)
    ensures Get(r, k) == Some(v)
    ensures |h| <= |r| <= |h| + 1
  {
    if h == [] then [(k, v)]
    else if h[0].0 == k then [(k, v)] + h[1..]
    else [h[0]] + Store(h[1..], k, v)
  }

  /** `h.delete(k)`: the entry for k goes, the others keep their order. */
  function Delete(h: Hash, k: string): (r: Hash)
    ensures Get(r, k) == None
    ensures |r| <= |h|
  {
    if h == [] then []
    else if h[0].0 == k then Delete(h[1..], k)
    else [h[0]] + Delete(h[1..], k)
  }

  /** `a.merge(b)`: b's values win; a's keys keep their order and b's new
      keys follow in b's order. */
  function Merge(a: Hash, b: Hash): (r: Hash)
    ensures |a| <= |r| <= |a| + |b|
    decreases |b|
  {
    if b == [] then a
    else Merge(Store(a, b[0].0, b[0].1), b[1..])
  }

  /** `Rack::Utils.build_query`: `k=v` pairs joined by `&`, in order. */
  function BuildQuery(h: Hash): (q: string)
    ensures h == [] <==> q == ""
  {
    if h == [] then ""
    else if |h| == 1 then h[0].0 + "=" + h[0].1
    else h[0].0 + "=" + h[0].1 + "&" + BuildQuery(h[1..])
  }

  // ----- what the operations do to the contents -----

  lemma {:induction false} AsMapKeys(h: Hash, k: string)
    ensures k in AsMap(h) <==> k in Keys(h)
  {
    if h != [] {
      AsMapKeys(h[1..], k);
      assert Keys(h) == [h[0].0] + Keys(h[1..]);
    }
  }

  /** Reading a key gives its value in the contents, nil for a missing key. */
  lemma {:induction false} GetSpec(h: Hash, k: string)
    ensures Get(h, k).Some? <==> k in AsMap(h)
    ensures Get(h, k).Some? ==> Get(h, k).value == AsMap(h)[k]
  {
    if h != [] && h[0].0 != k {
      GetSpec(h[1..], k);
    }
  }

  /** Storing k sets k and leaves every other key alone. */
  lemma {:induction false} StoreContents(h: Hash, k: string, v: string)
    ensures AsMap(Store(h, k, v)) == AsMap(h)[k := v]
  {
    if h != [] && h[0].0 != k {
      StoreContents(h[1..], k, v);
    }
  }

  /** Storing an existing key keeps the key order; a new key goes last. */
  lemma {:induction false} StoreOrder(h: Hash, k: string, v: string)
    ensures k in Keys(h) ==> Keys(Store(h, k, v)) == Keys(h)
    ensures k !in Keys(h) ==> Keys(Store(h, k, v)) == Keys(h) + [k]
  {
    if h == [] {
    } else if h[0].0 == k {
      assert Keys(Store(h, k, v)) == [k] + Keys(h[1..]);
      assert Keys(h) == [k] + Keys(h[1..]);
    } else {
      StoreOrder(h[1..], k, v);
      assert Keys(h) == [h[0].0] + Keys(h[1..]);
      assert Keys(Store(h, k, v)) == [h[0].0] + Keys(Store(h[1..], k, v));
    }
  }

  lemma {:induction false} UniqueTail(h: Hash)
    requires h != [] && Unique(h)
    ensures Unique(h[1..]) && h[0].0 !in Keys(h[1..])
  {
    assert forall i :: 0 <= i < |h| - 1 ==> Keys(h[1..])[i] == h[i + 1].0;
  }

  lemma {:induction false} UniqueCons(e: (string, string), t: Hash)
    requires Unique(t) && e.0 !in Keys(t)
    ensures Unique([e] + t)
  {
    var h := [e] + t;
    forall i, j | 0 <= i < j < |h|
      ensures h[i].0 != h[j].0
    {
      if i == 0 {
        assert h[j].0 == Keys(t)[j - 1];
      } else {
        assert h[i] == t[i - 1] && h[j] == t[j - 1];
      }
    }
  }

  lemma {:induction false} StoreUnique(h: Hash, k: string, v: string)
    requires Unique(h)
    ensures Unique(Store(h, k, v))
  {
    if h == [] {
    } else if h[0].0 == k {
      UniqueTail(h);
      UniqueCons((k, v), h[1..]);
    } else {
      UniqueTail(h);
      StoreUnique(h[1..], k, v);
      StoreOrder(h[1..], k, v);
      UniqueCons(h[0], Store(h[1..], k, v));
    }
  }

  /** Deleting k removes it and nothing else. */
  lemma {:induction false} DeleteKeys(h: Hash, k: string, j: string)
    ensures j in Keys(Delete(h, k)) <==> j in Keys(h) && j != k
  {
    if h != [] {
      DeleteKeys(h[1..], k, j);
      assert Keys(h) == [h[0].0] + Keys(h[1..]);
      if h[0].0 != k {
        assert Keys(Delete(h, k)) == [h[0].0] + Keys(Delete(h[1..], k));
      }
    }
  }

  lemma {:induction false} DeleteContents(h: Hash, k: string)
    requires Unique(h)
    ensures AsMap(Delete(h, k)) == AsMap(h) - {k}
  {
    if h != [] {
      UniqueTail(h);
      DeleteContents(h[1..], k);
      if h[0].0 == k {
        AsMapKeys(h[1..], k);
      }
    }
  }

  lemma {:induction false} DeleteUnique(h: Hash, k: string)
    requires Unique(h)
    ensures Unique(Delete(h, k))
  {
    if h != [] {
      UniqueTail(h);
      DeleteUnique(h[1..], k);
      if h[0].0 != k {
        DeleteKeys(h[1..], k, h[0].0);
        UniqueCons(h[0], Delete(h[1..], k));
      }
    }
  }

  lemma {:induction false} DeleteAbsent(h: Hash, k: string)
    requires k !in Keys(h)
    ensures Delete(h, k) == h
  {
    if h != [] {
      assert Keys(h) == [h[0].0] + Keys(h[1..]);
      DeleteAbsent(h[1..], k);
    }
  }

  /** a.merge(b) holds a's contents overridden by b's. */
  lemma {:induction false} MergeContents(a: Hash, b: Hash)
    requires Unique(b)
    ensures AsMap(Merge(a, b)) == AsMap(a) + AsMap(b)
    decreases |b|
  {
    if b != [] {
      UniqueTail(b);
      StoreContents(a, b[0].0, b[0].1);
      MergeContents(Store(a, b[0].0, b[0].1), b[1..]);
      AsMapKeys(b[1..], b[0].0);
    }
  }

  lemma {:induction false} MergeUnique(a: Hash, b: Hash)
    requires Unique(a)
    ensures Unique(Merge(a, b))
    decreases |b|
  {
    if b != [] {
      StoreUnique(a, b[0].0, b[0].1);
      MergeUnique(Store(a, b[0].0, b[0].1), b[1..]);
    }
  }
}
