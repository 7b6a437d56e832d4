/** The grouping index of one field over one batch (`refIds`): for every
    identifier read from the batch, the positions of the documents holding
    it, in batch order, and the identifiers in first-seen order (the order
    of `Object.keys(refIds)`). */
module BatchGrouping {
  import opened Common

  /** `doc[option.path]` for every document of the batch. */
  function Keys(docs: seq<Doc>, path: string): (r: seq<Value>)
    ensures |r| == |docs|
    ensures forall i :: 0 <= i < |docs| ==> r[i] == docs[i].Get(path)
  {
    seq(|docs|, i requires 0 <= i < |docs| => docs[i].Get(path))
  }

  /** The positions holding `k`, in increasing order. */
  function Positions(keys: seq<Value>, k: Value): seq<nat> {
    if keys == [] then []
    else
      var n := |keys| - 1;
      Positions(keys[..n], k) + (if keys[n] == k then [n] else [])
  }

  /** The bucket map: each identifier of the batch to its positions. */
  function Grouping(keys: seq<Value>): map<Value, seq<nat>> {
    map k | k in keys :: Positions(keys, k)
  }

  /** The identifiers of the batch, each once, in first-seen order. */
  function Distinct(keys: seq<Value>): seq<Value> {
    if keys == [] then []
    else
      var n := |keys| - 1;
      if keys[n] in keys[..n] then Distinct(keys[..n]) else Distinct(keys[..n]) + [keys[n]]
  }

  /** The grouping loop: `refIds[refId].docs.push(doc)` when the bucket
      exists, otherwise a new bucket (and a new key at the end of the key
      order). */
  method Group(docs: array<Doc>, path: string) returns (buckets: map<Value, seq<nat>>, order: seq<Value>)
    ensures buckets == Grouping(Keys(docs[..], path))
    ensures order == Distinct(Keys(docs[..], path))
  {
    ghost var keys := Keys(docs[..], path);
    buckets, order := map[], [];
    for i := 0 to docs.Length
      invariant buckets == Grouping(keys[..i])
      invariant order == Distinct(keys[..i])
    {
      var refId := docs[i].Get(path);
      GroupingStep(keys, i);
      DistinctStep(keys, i);
      if refId in buckets {
        buckets := buckets[refId := buckets[refId] + [i]];
      } else {
        buckets := buckets[refId := [i]];
        order := order + [refId];
      }
    }
    assert keys[..docs.Length] == keys;
  }

  /** Adding the document at position `i` appends its identifier to the
      key order on first sight only. */
  lemma DistinctStep(keys: seq<Value>, i: nat)
    requires i < |keys|
    ensures keys[i] in Grouping(keys[..i]) <==> keys[i] in keys[..i]
    ensures Distinct(keys[..i + 1]) ==
      if keys[i] in keys[..i] then Distinct(keys[..i]) else Distinct(keys[..i]) + [keys[i]]
  {
    assert keys[..i + 1][..i] == keys[..i];
  }

  lemma {:induction false} PositionsOfAbsent(keys: seq<Value>, k: Value)
    requires k !in keys
    ensures Positions(keys, k) == []
  {
    if keys != [] {
      PositionsOfAbsent(keys[..|keys| - 1], k);
    }
  }

  /** Adding the document at position `i` appends `i` to its identifier's
      bucket, creating the bucket on first sight. */
  lemma GroupingStep(keys: seq<Value>, i: nat)
    requires i < |keys|
    ensures Grouping(keys[..i + 1]) ==
      if keys[i] in Grouping(keys[..i])
      then Grouping(keys[..i])[keys[i] := Grouping(keys[..i])[keys[i]] + [i]]
      else Grouping(keys[..i])[keys[i] := [i]]
  {
    var pre, post := keys[..i], keys[..i + 1];
    assert post[..i] == pre;
    var g, g' := Grouping(pre), Grouping(post);
    var k := keys[i];
    assert forall v :: v in post <==> v in pre || v == k;
    var expected := if k in g then g[k := g[k] + [i]] else g[k := [i]];
    assert g'.Keys == expected.Keys;
    forall v | v in g'
      ensures g'[v] == expected[v]
    {
      assert Positions(post, v) == Positions(pre, v) + (if k == v then [i] else []);
      if v == k && k !in g {
        PositionsOfAbsent(pre, k);
      }
    }
  }

  /** A position is in the bucket of `k` exactly when the document there
      holds `k`. */
  lemma {:induction false} PositionsMembership(keys: seq<Value>, k: Value)
    ensures forall i :: i in Positions(keys, k) <==> 0 <= i < |keys| && keys[i] == k
  {
    if keys != [] {
      var n := |keys| - 1;
      PositionsMembership(keys[..n], k);
    }
  }

  /** Each bucket lists its documents in batch order. */
  lemma {:induction false} PositionsIncreasing(keys: seq<Value>, k: Value)
    ensures forall a, b :: 0 <= a < b < |Positions(keys, k)| ==> Positions(keys, k)[a] < Positions(keys, k)[b]
  {
    if keys != [] {
      var n := |keys| - 1;
      PositionsIncreasing(keys[..n], k);
      PositionsMembership(keys[..n], k);
      var p := Positions(keys[..n], k);
      assert forall a :: 0 <= a < |p| ==> p[a] in p;
    }
  }

  /** The buckets partition the batch: the keys are exactly the identifiers
      read, every document is in the bucket of its own identifier, and no
      bucket holds a document with another identifier. */
  lemma GroupingPartitions(keys: seq<Value>)
    ensures forall v :: v in Grouping(keys) <==> v in keys
    ensures forall i :: 0 <= i < |keys| ==> keys[i] in Grouping(keys) && i in Grouping(keys)[keys[i]]
    ensures forall v, i :: v in Grouping(keys) && i in Grouping(keys)[v] ==> i < |keys| && keys[i] == v
  {
    forall v | v in keys {
      PositionsMembership(keys, v);
    }
  }

  /** A position belongs to exactly one bucket. */
  lemma BucketsDisjoint(keys: seq<Value>, v: Value, w: Value, i: nat)
    requires v in Grouping(keys) && w in Grouping(keys)
    requires i in Grouping(keys)[v] && i in Grouping(keys)[w]
    ensures v == w
  {
    PositionsMembership(keys, v);
    PositionsMembership(keys, w);
  }

  /** The key order lists each identifier of the batch exactly once: these
      are the `$in` values of the slow-path match. */
  lemma {:induction false} DistinctSpec(keys: seq<Value>)
    ensures forall v :: v in Distinct(keys) <==> v in keys
    ensures forall a, b :: 0 <= a < b < |Distinct(keys)| ==> Distinct(keys)[a] != Distinct(keys)[b]
  {
    if keys != [] {
      var n := |keys| - 1;
      DistinctSpec(keys[..n]);
      assert keys == keys[..n] + [keys[n]];
    }
  }

  /** The key order and the bucket map have the same identifiers. */
  lemma OrderMatchesBuckets(keys: seq<Value>)
    ensures forall v :: v in Distinct(keys) <==> v in Grouping(keys)
  {
    DistinctSpec(keys);
  }
}
