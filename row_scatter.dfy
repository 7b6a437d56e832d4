/** Scattering the aggregation rows of one field back onto the batch: a row
    fills every document of its identifier's bucket and the bucket is
    deleted, so the first matching row wins; the buckets no row matched are
    then set to `null`. */
module RowScatter {
  import opened Common
  import opened BatchGrouping

  predicate Matches(r: Row, k: Value) {
    Id(r.id) == k
  }

  /** The first row whose `_id` is `k`. */
  function FirstMatch(rows: seq<Row>, k: Value): Option<Row> {
    if rows == [] then None
    else
      var n := |rows| - 1;
      var earlier := FirstMatch(rows[..n], k);
      if earlier.Some? then earlier
      else if Matches(rows[n], k) then Some(rows[n])
      else None
  }

  /** What a document holding `k` ends up with: the first matching row,
      or `null` when no row matches; never a raw identifier. */
  function Resolved(rows: seq<Row>, k: Value): (v: Value)
    ensures v.Embedded? || v.Null?
  {
    match FirstMatch(rows, k)
    case Some(r) => Embedded(r)
    case None => Null
  }

  /** `rows[j]` matches `k` and no earlier row does. */
  ghost predicate IsFirstMatch(rows: seq<Row>, k: Value, j: int) {
    0 <= j < |rows| && Matches(rows[j], k) &&
    forall j' :: 0 <= j' < j ==> !Matches(rows[j'], k)
  }

  /** FirstMatch finds the earliest matching row, and finds none exactly
      when no row matches. */
  lemma {:induction false} FirstMatchSpec(rows: seq<Row>, k: Value)
    ensures FirstMatch(rows, k).None? <==> forall j :: 0 <= j < |rows| ==> !Matches(rows[j], k)
    ensures FirstMatch(rows, k).Some? ==>
      exists j :: IsFirstMatch(rows, k, j) && rows[j] == FirstMatch(rows, k).value
  {
    if rows != [] {
      var n := |rows| - 1;
      var init := rows[..n];
      FirstMatchSpec(init, k);
      assert forall j :: 0 <= j < n ==> rows[j] == init[j];
      if FirstMatch(init, k).Some? {
        var j :| IsFirstMatch(init, k, j) && init[j] == FirstMatch(init, k).value;
        assert IsFirstMatch(rows, k, j);
      } else if Matches(rows[n], k) {
        assert IsFirstMatch(rows, k, n);
      }
    }
  }

  /** Rows after the first match for `k` do not change what `k` gets. */
  lemma LaterRowsIgnored(rows: seq<Row>, more: seq<Row>, k: Value)
    requires FirstMatch(rows, k).Some?
    ensures FirstMatch(rows + more, k) == FirstMatch(rows, k)
    decreases |more|
  {
    if more != [] {
      var all := rows + more;
      var n := |all| - 1;
      assert all[..n] == rows + more[..|more| - 1];
      LaterRowsIgnored(rows, more[..|more| - 1], k);
      assert FirstMatch(all, k) == FirstMatch(all[..n], k);
    } else {
      assert rows + more == rows;
    }
  }

  /** Every position in `targets` gets `path` set to `v`; nothing else
      changes. */
  method SetAll(docs: array<Doc>, targets: seq<nat>, path: string, v: Value)
    requires forall t :: t in targets ==> t < docs.Length
    modifies docs
    ensures forall i :: 0 <= i < docs.Length ==>
      docs[i] == if i in targets then old(docs[i]).Set(path, v) else old(docs[i])
  {
    for m := 0 to |targets|
      invariant forall i :: 0 <= i < docs.Length ==>
        docs[i] == if i in targets[..m] then old(docs[i]).Set(path, v) else old(docs[i])
    {
      var t := targets[m];
      assert t in targets;
      assert targets[..m + 1] == targets[..m] + [t];
      docs[t] := docs[t].Set(path, v);
    }
    assert targets[..|targets|] == targets;
  }

  function FirstMatchStep(earlier: Option<Row>, row: Row, k: Value): Option<Row> {
    if earlier.Some? then earlier else if Matches(row, k) then Some(row) else None
  }

  /** A document after the rows seen so far: the first matching row if
      there is one yet, otherwise unchanged. */
  function Partial(d: Doc, path: string, m: Option<Row>): Doc {
    match m
    case Some(r) => d.Set(path, Embedded(r))
    case None => d
  }

  /** The rows still unmatched after `rows`: the buckets no row has
      claimed yet, unchanged. */
  ghost predicate Unclaimed(remaining: map<Value, seq<nat>>, buckets: map<Value, seq<nat>>, rows: seq<Row>) {
    (forall k :: k in remaining <==> k in buckets && FirstMatch(rows, k).None?) &&
    (forall k :: k in remaining ==> remaining[k] == buckets[k])
  }

  /** One result row: when its bucket is still present, the bucket's
      documents get the row and the bucket is deleted. */
  method ClaimRow(docs: array<Doc>, path: string, remaining: map<Value, seq<nat>>,
                  ghost buckets: map<Value, seq<nat>>, ghost keys: seq<Value>,
                  ghost original: seq<Doc>, ghost done: seq<Row>, row: Row)
    returns (remaining': map<Value, seq<nat>>)
    requires docs.Length == |keys| == |original| && buckets == Grouping(keys)
    requires Unclaimed(remaining, buckets, done)
    requires forall i :: 0 <= i < docs.Length ==>
      docs[i] == Partial(original[i], path, FirstMatch(done, keys[i]))
    modifies docs
    ensures Unclaimed(remaining', buckets, done + [row])
    ensures forall i :: 0 <= i < docs.Length ==>
      docs[i] == Partial(original[i], path, FirstMatch(done + [row], keys[i]))
  {
    ghost var after := done + [row];
    assert after[..|done|] == done;
    assert forall k :: FirstMatch(after, k) == FirstMatchStep(FirstMatch(done, k), row, k);
    var refId := Id(row.id);
    remaining' := remaining;
    if refId in remaining {
      PositionsMembership(keys, refId);
      SetAll(docs, remaining[refId], path, Embedded(row));
      remaining' := remaining - {refId};
    }
  }

  /** The loop over the result rows. */
  method ScatterRows(docs: array<Doc>, path: string, buckets: map<Value, seq<nat>>, ghost keys: seq<Value>, rows: seq<Row>)
    returns (remaining: map<Value, seq<nat>>)
    requires docs.Length == |keys| && buckets == Grouping(keys)
    modifies docs
    ensures Unclaimed(remaining, buckets, rows)
    ensures forall i :: 0 <= i < docs.Length ==>
      docs[i] == Partial(old(docs[i]), path, FirstMatch(rows, keys[i]))
  {
    ghost var original := docs[..];
    remaining := buckets;
    for j := 0 to |rows|
      invariant Unclaimed(remaining, buckets, rows[..j])
      invariant forall i :: 0 <= i < docs.Length ==>
        docs[i] == Partial(old(docs[i]), path, FirstMatch(rows[..j], keys[i]))
    {
      remaining := ClaimRow(docs, path, remaining, buckets, keys, original, rows[..j], rows[j]);
      assert rows[..j + 1] == rows[..j] + [rows[j]];
    }
    assert rows[..|rows|] == rows;
  }

  /** `Object.keys(refIds).forEach(...)`: every bucket still present has
      its documents set to `null`. */
  method FillNull(docs: array<Doc>, path: string, remaining: map<Value, seq<nat>>, ghost keys: seq<Value>, ghost rows: seq<Row>)
    requires docs.Length == |keys|
    requires Unclaimed(remaining, Grouping(keys), rows)
    modifies docs
    ensures forall i :: 0 <= i < docs.Length ==>
      docs[i] == if FirstMatch(rows, keys[i]).Some? then old(docs[i]) else old(docs[i]).Set(path, Null)
  {
    var pending := remaining.Keys;
    while pending != {}
      invariant pending <= remaining.Keys
      invariant forall i :: 0 <= i < docs.Length ==>
        docs[i] == if keys[i] in pending || FirstMatch(rows, keys[i]).Some? then old(docs[i])
                   else old(docs[i]).Set(path, Null)
      decreases pending
    {
      var k :| k in pending;
      assert k in Grouping(keys) && remaining[k] == Positions(keys, k) && FirstMatch(rows, k).None?;
      PositionsMembership(keys, k);
      SetAll(docs, remaining[k], path, Null);
      pending := pending - {k};
    }
  }

  /** The scatter loop and the null fill. Each document's field becomes
      the first row matching the identifier it held when the batch was
      grouped, or `null`; only `path` is written, and the batch keeps its
      length and order. */
  method Scatter(docs: array<Doc>, path: string, buckets: map<Value, seq<nat>>, ghost keys: seq<Value>, rows: seq<Row>)
    requires docs.Length == |keys| && buckets == Grouping(keys)
    modifies docs
    ensures forall i :: 0 <= i < docs.Length ==>
      docs[i] == old(docs[i]).Set(path, Resolved(rows, keys[i]))
  {
    var remaining := ScatterRows(docs, path, buckets, keys, rows);
    FillNull(docs, path, remaining, keys, rows);
  }
}
