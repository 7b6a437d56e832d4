/** The schema scanner: a depth-first walk over a schema and its embedded
    sub-schemas that calls a handler with the dotted path of every leaf,
    keeping the path prefix in one shared buffer, and the plugin's use of
    it to record the paths annotated with `subRef`. */
module SchemaScan {
  import opened Common
  import opened DottedPath

  /** A schema is the ordered list of its paths; a path either is a leaf
      with its options or has an embedded schema of its own. */
  datatype Schema = Schema(entries: seq<Entry>)
  datatype Entry = Entry(name: string, kind: SchemaType)
  datatype SchemaType = Leaf(options: FieldOptions) | Nested(schema: Schema)

  /** One invocation of the handler. */
  datatype Call = Call(path: string, options: FieldOptions)

  /** The handler invocations of a walk over the first `i` paths of `s`,
      with `prefix` in the buffer. */
  function LeavesUpTo(prefix: seq<string>, s: Schema, i: nat): seq<Call>
    requires i <= |s.entries|
    decreases s, i
  {
    if i == 0 then []
    else
      var e := s.entries[i - 1];
      LeavesUpTo(prefix, s, i - 1) + EntryLeaves(prefix, e.name, e.kind)
  }

  /** The handler invocations of a whole walk over `s`. */
  function Leaves(prefix: seq<string>, s: Schema): seq<Call>
    decreases s, |s.entries| + 1
  {
    LeavesUpTo(prefix, s, |s.entries|)
  }

  /** `chain` names a leaf of `s` whose options are `o`: every name but the
      last selects a path with an embedded schema, the last a leaf. */
  ghost predicate IsLeafChain(s: Schema, chain: seq<string>, o: FieldOptions)
    decreases s
  {
    |chain| >= 1 &&
    exists j :: 0 <= j < |s.entries| && s.entries[j].name == chain[0] &&
      match s.entries[j].kind
      case Leaf(o') => |chain| == 1 && o' == o
      case Nested(sub) => IsLeafChain(sub, chain[1..], o)
  }

  /** The path array that `eachPathRecursive` pushes onto and pops from. */
  class PathBuffer {
    var segments: seq<string>

    constructor ()
      ensures segments == []
    {
      segments := [];
    }

    method Push(name: string)
      modifies this
      ensures segments == old(segments) + [name]
    {
      segments := segments + [name];
    }

    /** `Array.prototype.pop`: removes the last element, if any. */
    method Pop()
      modifies this
      ensures segments == if old(segments) == [] then [] else old(segments)[..|old(segments)| - 1]
    {
      if segments != [] {
        segments := segments[..|segments| - 1];
      }
    }
  }

  /** The map the plugin fills from a list of handler invocations: a path
      is kept when its `subRef` option is truthy; a later call for the same
      path overrides an earlier one. */
  function Collected(calls: seq<Call>): map<string, FieldOptions> {
    if calls == [] then map[]
    else
      var last := calls[|calls| - 1];
      var rest := Collected(calls[..|calls| - 1]);
      if Truthy(last.options.subRef) then rest[last.path := last.options] else rest
  }

  /** The plugin's handler: records `populableReferencesPaths[path]` for
      the leaves carrying `subRef`; `calls` logs every invocation. */
  class Handler {
    ghost var calls: seq<Call>
    var found: map<string, FieldOptions>

    ghost predicate Valid()
      reads this
    {
      found == Collected(calls)
    }

    constructor ()
      ensures Valid() && calls == [] && found == map[]
    {
      calls := [];
      found := map[];
    }

    method Handle(path: string, options: FieldOptions)
      requires Valid()
      modifies this
      ensures Valid()
      ensures calls == old(calls) + [Call(path, options)]
    {
      if Truthy(options.subRef) {
        found := found[path := options];
      }
      calls := calls + [Call(path, options)];
      assert calls[..|calls| - 1] == old(calls);
    }
  }

  /** The handler invocations for one path of a schema: the leaf itself,
      or the walk of its embedded schema, with the path's name pushed. */
  function EntryLeaves(prefix: seq<string>, name: string, kind: SchemaType): seq<Call>
    decreases kind
  {
    match kind
    case Leaf(o) => [Call(Join(prefix + [name]), o)]
    case Nested(sub) => Leaves(prefix + [name], sub)
  }

  /** `eachPathRecursive(schema, handler, path)`: the handler sees exactly
      the walk's leaves, in order, and the buffer is back to its entry
      contents afterwards. */
  method EachPathRecursive(schema: Schema, path: PathBuffer, handler: Handler)
    requires handler.Valid()
    modifies path, handler
    ensures handler.Valid()
    ensures path.segments == old(path.segments)
    ensures handler.calls == old(handler.calls) + Leaves(old(path.segments), schema)
    decreases schema, 1
  {
    ghost var prefix := path.segments;
    ghost var calls0 := handler.calls;
    var i := 0;
    while i < |schema.entries|
      invariant 0 <= i <= |schema.entries|
      invariant handler.Valid()
      invariant path.segments == prefix
      invariant handler.calls == calls0 + LeavesUpTo(prefix, schema, i)
    {
      var e := schema.entries[i];
      VisitPath(e.name, e.kind, path, handler);
      i := i + 1;
    }
  }

  /** The callback given to `schema.eachPath`: push the name, recurse into
      an embedded schema or call the handler with the joined path, pop. */
  method VisitPath(name: string, kind: SchemaType, path: PathBuffer, handler: Handler)
    requires handler.Valid()
    modifies path, handler
    ensures handler.Valid()
    ensures path.segments == old(path.segments)
    ensures handler.calls == old(handler.calls) + EntryLeaves(old(path.segments), name, kind)
    decreases kind, 0
  {
    path.Push(name);
    match kind {
      case Nested(sub) =>
        EachPathRecursive(sub, path, handler);
      case Leaf(o) =>
        handler.Handle(Join(path.segments), o);
    }
    path.Pop();
  }

  /** The plugin body: walk the schema from an empty buffer and keep the
      handler's map. Its keys are exactly the leaf paths whose `subRef`
      is truthy. */
  method CollectSubRefPaths(schema: Schema) returns (found: map<string, FieldOptions>)
    ensures found == Collected(Leaves([], schema))
    ensures forall p :: p in found <==>
      exists c :: c in Leaves([], schema) && c.path == p && Truthy(c.options.subRef)
  {
    var path := new PathBuffer();
    var handler := new Handler();
    EachPathRecursive(schema, path, handler);
    assert handler.calls == Leaves([], schema);
    found := handler.found;
    CollectedKeys(Leaves([], schema));
  }

  /** A path is collected exactly when some call for it carries a truthy
      `subRef`. */
  lemma {:induction false} CollectedKeys(calls: seq<Call>)
    ensures forall p :: p in Collected(calls) <==>
      exists c :: c in calls && c.path == p && Truthy(c.options.subRef)
  {
    if calls != [] {
      var init := calls[..|calls| - 1];
      CollectedKeys(init);
      assert calls == init + [calls[|calls| - 1]];
    }
  }

  predicate Kept(c: Call, p: string) {
    c.path == p && Truthy(c.options.subRef)
  }

  /** `calls[j]` is the last call for `p` with a truthy `subRef`. */
  ghost predicate LastKept(calls: seq<Call>, p: string, j: int) {
    0 <= j < |calls| && Kept(calls[j], p) &&
    forall k :: j < k < |calls| ==> !Kept(calls[k], p)
  }

  /** The collected options of a path are those of its LAST call with a
      truthy `subRef`. */
  lemma {:induction false} CollectedLastWins(calls: seq<Call>, p: string)
    requires p in Collected(calls)
    ensures exists j :: LastKept(calls, p, j) && Collected(calls)[p] == calls[j].options
  {
    var init := calls[..|calls| - 1];
    var last := calls[|calls| - 1];
    if last.path == p && Truthy(last.options.subRef) {
      assert calls[|calls| - 1] == last;
    } else {
      CollectedLastWins(init, p);
      var j :| LastKept(init, p, j) && Collected(init)[p] == init[j].options;
      assert calls[j] == init[j];
      forall k | j < k < |calls|
        ensures !Kept(calls[k], p)
      {
        if k < |init| { assert calls[k] == init[k]; }
      }
      assert LastKept(calls, p, j);
    }
  }

  /** Every handler call is for a leaf: its path is the buffer's prefix
      joined with the chain of names from the root to that leaf. */
  lemma {:induction false} VisitedAreLeaves(prefix: seq<string>, s: Schema, i: nat, c: Call)
    requires i <= |s.entries| && c in LeavesUpTo(prefix, s, i)
    ensures exists chain :: IsLeafChain(s, chain, c.options) && c.path == Join(prefix + chain)
    decreases s, i
  {
    var e := s.entries[i - 1];
    if c in LeavesUpTo(prefix, s, i - 1) {
      VisitedAreLeaves(prefix, s, i - 1, c);
    } else {
      assert c in EntryLeaves(prefix, e.name, e.kind);
      match e.kind
      case Leaf(o) =>
        assert IsLeafChain(s, [e.name], c.options) by {
          assert s.entries[i - 1].name == [e.name][0];
        }
      case Nested(sub) =>
        assert c in Leaves(prefix + [e.name], sub);
        VisitedAreLeaves(prefix + [e.name], sub, |sub.entries|, c);
        var chain' :| IsLeafChain(sub, chain', c.options) && c.path == Join(prefix + [e.name] + chain');
        var chain := [e.name] + chain';
        assert chain[1..] == chain';
        assert prefix + chain == prefix + [e.name] + chain';
        assert IsLeafChain(s, chain, c.options) by {
          assert s.entries[i - 1].name == chain[0];
        }
    }
  }

  lemma {:induction false} LeavesUpToGrows(prefix: seq<string>, s: Schema, i: nat, k: nat, c: Call)
    requires i <= k <= |s.entries| && c in LeavesUpTo(prefix, s, i)
    ensures c in LeavesUpTo(prefix, s, k)
    decreases k
  {
    if i < k {
      LeavesUpToGrows(prefix, s, i, k - 1, c);
    }
  }

  /** Every leaf is visited, with the path built from its chain of names. */
  lemma {:induction false} LeavesAreVisited(prefix: seq<string>, s: Schema, chain: seq<string>, o: FieldOptions)
    requires IsLeafChain(s, chain, o)
    ensures Call(Join(prefix + chain), o) in Leaves(prefix, s)
    decreases s
  {
    var j :| 0 <= j < |s.entries| && s.entries[j].name == chain[0] &&
      match s.entries[j].kind
      case Leaf(o') => |chain| == 1 && o' == o
      case Nested(sub) => IsLeafChain(sub, chain[1..], o);
    var e := s.entries[j];
    match e.kind {
      case Leaf(o') =>
        assert chain == [e.name];
        assert Call(Join(prefix + chain), o) in LeavesUpTo(prefix, s, j + 1);
      case Nested(sub) =>
        LeavesAreVisited(prefix + [e.name], sub, chain[1..], o);
        assert prefix + chain == prefix + [e.name] + chain[1..];
        assert Call(Join(prefix + chain), o) in LeavesUpTo(prefix, s, j + 1);
    }
    LeavesUpToGrows(prefix, s, j + 1, |s.entries|, Call(Join(prefix + chain), o));
  }
}
