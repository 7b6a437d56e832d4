/** The synchronous part of resolving one field: read the field's
    `subRef`/`boundTo` options, split `subRef` into the root model and the
    array path, check the `boundTo` field and the array's element type,
    group the batch, and build the aggregation stages. */
module Aggregation {
  import opened Common
  import opened DottedPath
  import opened OptionFormat
  import opened BatchGrouping

  /** A registered model: its schema paths (as `schema.path(p)` sees them)
      and its collection name. */
  datatype ModelInfo = ModelInfo(paths: map<string, FieldOptions>, collectionName: string)

  /** `mongoose.model(name)`, given as a map. */
  type Registry = map<string, ModelInfo>

  /** Everything `execute` derives from the schemas for one option. */
  datatype FieldConfig = FieldConfig(
    path: string,             // option.path
    boundTo: Option<string>,  // the boundTo path, when it names a schema path
    rootRef: string,
    subPathRef: string,
    arrayOfObjects: bool,     // !options.type[0].type
    elemRef: Option<string>)  // options.type[0].ref
  {
    /** `!!options.type[0].ref` */
    predicate ArrayOfReferences() {
      Truthy(elemRef)
    }
  }

  /** `$replaceRoot.newRoot`: a field path, or `{_id: <field path>}`. */
  datatype NewRoot = FieldRef(path: string) | IdOf(path: string)

  datatype Stage =
    | Match(field: string, values: seq<Value>)   // {$match: {field: {$in: values}}}
    | Unwind(path: string)
    | ReplaceRoot(newRoot: NewRoot)
    | Lookup(from: string, localField: string, foreignField: string, asField: string)

  /** Everything that `execute` prepares for one option before sending the
      aggregation: the configuration, the identifiers read from the batch,
      the buckets, and the stages. */
  datatype FieldPlan = FieldPlan(config: FieldConfig, keys: seq<Value>, buckets: map<Value, seq<nat>>, pipeline: seq<Stage>)

  /** The checks of one option, in the order the source makes them. */
  function Configure(model: ModelInfo, registry: Registry, option: Arg): (r: Result<FieldConfig>)
  {
    match PathOf(option)
    case None => Err(TypeError("options"))
    case Some(p) =>
      if p !in model.paths then Err(TypeError("options"))
      else
        var local := model.paths[p];
        var bound :=
          if Truthy(local.boundTo) && local.boundTo.value in model.paths
          then Some(local.boundTo.value) else None;
        if local.subRef.None? then Err(TypeError("split"))
        else
          var (root, sub) := SplitSubRef(local.subRef.value);
          if root !in registry then Err(MissingSchema(root))
          else if bound.Some? && model.paths[bound.value].ref != Some(root) then
            Err(StrictEqualFailed(model.paths[bound.value].ref, root))
          else if sub !in registry[root].paths || registry[root].paths[sub].elem.None? then
            Err(TypeError("type"))
          else
            var elem := registry[root].paths[sub].elem.value;
            var objects := !elem.hasType;
            if !objects && !Truthy(elem.ref) then Err(AssertionError(UnsupportedMessage))
            else Ok(FieldConfig(p, bound, root, sub, objects, elem.ref))
  }

  /** `ref._id || ref`: a populated reference gives its `_id`, a raw one
      itself; reading `_id` of null or undefined throws. */
  function BoundKey(v: Value): (r: Result<Value>)
    ensures r.Ok? <==> !(v.Null? || v.Undefined?)
    ensures r.Ok? ==> r.value.Id?
  {
    match v
    case Undefined => Err(TypeError("_id"))
    case Null => Err(TypeError("_id"))
    case Id(_) => Ok(v)
    case Embedded(row) => Ok(Id(row.id))
  }

  /** `docs.map((doc) => ...)` over the `boundTo` field; the first failing
      document throws. */
  function BoundIds(docs: seq<Doc>, boundTo: string): (r: Result<seq<Value>>)
    ensures r.Ok? ==> |r.value| == |docs|
    ensures r.Ok? ==> forall i :: 0 <= i < |docs| ==> BoundKey(docs[i].Get(boundTo)) == Ok(r.value[i])
    ensures r.Ok? <==> forall i :: 0 <= i < |docs| ==> BoundKey(docs[i].Get(boundTo)).Ok?
  {
    if docs == [] then Ok([])
    else
      match BoundKey(docs[0].Get(boundTo))
      case Err(e) => Err(e)
      case Ok(v) =>
        match BoundIds(docs[1..], boundTo)
        case Err(e) => Err(e)
        case Ok(rest) => Ok([v] + rest)
  }

  /** The `$match` stage: on `_id` over the bound references (fast way),
      or on the array path (plus `._id` for sub-documents) over the
      grouped identifiers (slow way). */
  function MatchStage(c: FieldConfig, docs: seq<Doc>, order: seq<Value>): (r: Result<Stage>)
    ensures r.Ok? ==> r.value.Match?
    ensures c.boundTo.None? ==> r.Ok?
  {
    if c.boundTo.Some? then
      match BoundIds(docs, c.boundTo.value)
      case Err(e) => Err(e)
      case Ok(ids) => Ok(Match("_id", ids))
    else
      Ok(Match(c.subPathRef + (if c.arrayOfObjects then "._id" else ""), order))
  }

  /** `aggregationOptions`. */
  function BuildPipeline(c: FieldConfig, registry: Registry, docs: seq<Doc>, order: seq<Value>): (r: Result<seq<Stage>>)
    ensures r.Err? ==> c.boundTo.Some? || c.ArrayOfReferences()
  {
    match MatchStage(c, docs, order)
    case Err(e) => Err(e)
    case Ok(m) =>
      var sub := "$" + c.subPathRef;
      var head := [m, Unwind(sub), ReplaceRoot(if c.arrayOfObjects then FieldRef(sub) else IdOf(sub))];
      if !c.ArrayOfReferences() then Ok(head)
      else if c.elemRef.value !in registry then Err(MissingSchema(c.elemRef.value))
      else
        Ok(head + [
          Lookup(registry[c.elemRef.value].collectionName, "_id", "_id", "lookupOne"),
          Unwind("$lookupOne"),
          ReplaceRoot(FieldRef("$lookupOne"))])
  }

  /** The whole synchronous preparation of one option. */
  function PlanField(model: ModelInfo, registry: Registry, docs: seq<Doc>, option: Arg): Result<FieldPlan> {
    match Configure(model, registry, option)
    case Err(e) => Err(e)
    case Ok(c) =>
      var keys := Keys(docs, c.path);
      match BuildPipeline(c, registry, docs, Distinct(keys))
      case Err(e) => Err(e)
      case Ok(stages) => Ok(FieldPlan(c, keys, Grouping(keys), stages))
  }

  /** A configuration that passes every check: `rootRef` is the first
      '.'-segment of `subRef` and `subPathRef` the rest, both models and the
      array path exist, the array holds objects or references, and a
      `boundTo` field references the root model. */
  lemma ConfigureAccepts(model: ModelInfo, registry: Registry, option: Arg)
    requires Configure(model, registry, option).Ok?
    ensures var c := Configure(model, registry, option).value;
      && PathOf(option) == Some(c.path) && c.path in model.paths
      && model.paths[c.path].subRef.Some?
      && '.' !in c.rootRef
      && (var s := model.paths[c.path].subRef.value;
          if '.' in s then s == c.rootRef + "." + c.subPathRef else c.rootRef == s && c.subPathRef == "")
      && c.rootRef in registry && c.subPathRef in registry[c.rootRef].paths
      && (var o := model.paths[c.path];
          var e := registry[c.rootRef].paths[c.subPathRef].elem;
          && e.Some?
          && c.arrayOfObjects == !e.value.hasType
          && c.elemRef == e.value.ref
          && (!e.value.hasType || Truthy(e.value.ref))
          && (c.boundTo.Some? <==> Truthy(o.boundTo) && o.boundTo.value in model.paths)
          && (c.boundTo.Some? ==> c.boundTo == o.boundTo))
      && (c.arrayOfObjects || c.ArrayOfReferences())
      && (c.boundTo.Some? ==> c.boundTo.value in model.paths && model.paths[c.boundTo.value].ref == Some(c.rootRef))
  {
    var c := Configure(model, registry, option).value;
    SubRefParts(model.paths[c.path].subRef.value);
  }

  /** Conversely, an option naming a schema path that passes every check
      (the root model is registered, a known `boundTo` field references it,
      the array path exists and holds sub-documents or references) is
      accepted. */
  lemma ConfigureSucceeds(model: ModelInfo, registry: Registry, p: string, s: string, e: ElementDecl)
    requires p in model.paths && model.paths[p].subRef == Some(s)
    requires SplitSubRef(s).0 in registry
    requires !Truthy(model.paths[p].boundTo) || model.paths[p].boundTo.value !in model.paths
          || model.paths[model.paths[p].boundTo.value].ref == Some(SplitSubRef(s).0)
    requires SplitSubRef(s).1 in registry[SplitSubRef(s).0].paths
    requires registry[SplitSubRef(s).0].paths[SplitSubRef(s).1].elem == Some(e)
    requires !e.hasType || Truthy(e.ref)
    ensures var r := Configure(model, registry, Record(Text(p)));
      && r.Ok?
      && r.value == FieldConfig(p,
           if Truthy(model.paths[p].boundTo) && model.paths[p].boundTo.value in model.paths
           then model.paths[p].boundTo else None,
           SplitSubRef(s).0, SplitSubRef(s).1, !e.hasType, e.ref)
  {
  }

  /** A `boundTo` field whose `ref` is not the root model fails the strict
      equality assertion. */
  lemma BoundToMismatchFails(model: ModelInfo, registry: Registry, p: string, s: string, bt: string)
    requires p in model.paths && model.paths[p].subRef == Some(s)
    requires SplitSubRef(s).0 in registry
    requires model.paths[p].boundTo == Some(bt) && bt != "" && bt in model.paths
    requires model.paths[bt].ref != Some(SplitSubRef(s).0)
    ensures Configure(model, registry, Record(Text(p))) ==
      Err(StrictEqualFailed(model.paths[bt].ref, SplitSubRef(s).0))
  {
  }

  /** An array whose element declares a `type` and no `ref` is neither an
      array of sub-documents nor an array of references; this holds with no
      `boundTo`, an unknown one, or one that passes the strict equality. */
  lemma UnsupportedElementFails(model: ModelInfo, registry: Registry, p: string, s: string, e: ElementDecl)
    requires p in model.paths && model.paths[p].subRef == Some(s)
    requires !Truthy(model.paths[p].boundTo) || model.paths[p].boundTo.value !in model.paths
          || model.paths[model.paths[p].boundTo.value].ref == Some(SplitSubRef(s).0)
    requires SplitSubRef(s).0 in registry
    requires SplitSubRef(s).1 in registry[SplitSubRef(s).0].paths
    requires registry[SplitSubRef(s).0].paths[SplitSubRef(s).1].elem == Some(e)
    requires e.hasType && !Truthy(e.ref)
    ensures Configure(model, registry, Record(Text(p))) == Err(AssertionError(UnsupportedMessage))
  {
  }

  /** The stages: `$match`, `$unwind` of the array, `$replaceRoot` to the
      element (objects) or to `{_id: element}` (references), then for
      references the `$lookup` on `_id` into `lookupOne`, its `$unwind` and
      a `$replaceRoot` to it. */
  lemma PipelineShape(c: FieldConfig, registry: Registry, docs: seq<Doc>, order: seq<Value>)
    requires BuildPipeline(c, registry, docs, order).Ok?
    ensures var st := BuildPipeline(c, registry, docs, order).value;
      var sub := "$" + c.subPathRef;
      && |st| == (if c.ArrayOfReferences() then 6 else 3)
      && st[0].Match?
      && st[1] == Unwind(sub)
      && st[2] == ReplaceRoot(if c.arrayOfObjects then FieldRef(sub) else IdOf(sub))
      && (c.ArrayOfReferences() ==>
            && c.elemRef.value in registry
            && st[3] == Lookup(registry[c.elemRef.value].collectionName, "_id", "_id", "lookupOne")
            && st[4] == Unwind("$lookupOne")
            && st[5] == ReplaceRoot(FieldRef("$lookupOne")))
  {
  }

  /** The fast and the slow way differ only in the `$match` stage. */
  lemma StrategiesShareTail(c: FieldConfig, registry: Registry, docs: seq<Doc>, order: seq<Value>)
    requires BuildPipeline(c, registry, docs, order).Ok?
    ensures var slow := BuildPipeline(c.(boundTo := None), registry, docs, order);
      slow.Ok? && slow.value[1..] == BuildPipeline(c, registry, docs, order).value[1..]
  {
  }

  /** The slow way matches the array path (with `._id` exactly for
      sub-documents) against every grouped identifier, each once. */
  lemma SlowMatchIsBucketKeys(c: FieldConfig, registry: Registry, docs: seq<Doc>)
    requires c.boundTo.None?
    requires BuildPipeline(c, registry, docs, Distinct(Keys(docs, c.path))).Ok?
    ensures var m := BuildPipeline(c, registry, docs, Distinct(Keys(docs, c.path))).value[0];
      && m.Match?
      && m.field == c.subPathRef + (if c.arrayOfObjects then "._id" else "")
      && (forall v :: v in m.values <==> v in Grouping(Keys(docs, c.path)))
      && (forall a, b :: 0 <= a < b < |m.values| ==> m.values[a] != m.values[b])
  {
    OrderMatchesBuckets(Keys(docs, c.path));
    DistinctSpec(Keys(docs, c.path));
  }

  /** The fast way matches `_id` against the bound reference of every
      document of the batch, one value per document, in batch order. */
  lemma FastMatchIsBoundRefs(c: FieldConfig, registry: Registry, docs: seq<Doc>, order: seq<Value>)
    requires c.boundTo.Some?
    requires BuildPipeline(c, registry, docs, order).Ok?
    ensures var m := BuildPipeline(c, registry, docs, order).value[0];
      && m.Match? && m.field == "_id" && |m.values| == |docs|
      && forall i :: 0 <= i < |docs| ==> BoundKey(docs[i].Get(c.boundTo.value)) == Ok(m.values[i])
  {
  }

  /** With a `boundTo` field, a document whose bound reference is null or
      missing makes the preparation throw. */
  lemma FastMatchNeedsBoundRefs(c: FieldConfig, registry: Registry, docs: seq<Doc>, order: seq<Value>, i: nat)
    requires c.boundTo.Some? && i < |docs|
    requires docs[i].Get(c.boundTo.value).Null? || docs[i].Get(c.boundTo.value).Undefined?
    ensures BuildPipeline(c, registry, docs, order).Err?
  {
  }

  /** A prepared plan holds the batch's identifiers at the field's path and
      their buckets. */
  lemma PlanFieldGroups(model: ModelInfo, registry: Registry, docs: seq<Doc>, option: Arg)
    requires PlanField(model, registry, docs, option).Ok?
    ensures var plan := PlanField(model, registry, docs, option).value;
      && plan.config == Configure(model, registry, option).value
      && plan.keys == Keys(docs, plan.config.path)
      && plan.buckets == Grouping(plan.keys)
  {
  }
}
