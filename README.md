# Sub-reference populate, modelled in Dafny

A model of the mongoose plugin that populates *sub-references*: schema
fields whose `subRef` option (`"Model.arrayPath"`) says that the field
holds the `_id` of an element of an array inside documents of another
model. The plugin scans a schema for such fields, adds a
`subPopulate(options)` method to queries and documents, and resolves a
batch of documents by sending one aggregation per requested field and
writing the matching array element (or the referenced document) into each
document, or `null` when nothing matches.

The modules follow the parts of `index.js`:

- `Common`: identifiers, field values, documents as path-to-value maps,
  the schema options the plugin reads, errors and the fixed messages.
- `DottedPath`: `split('.')` and `join('.')`, with the round trips between them.
- `SchemaScan`: `eachPathRecursive` as a method over a shared `PathBuffer`
  class (push/pop), and the plugin's handler class that records the
  `subRef` paths.
- `OptionFormat`: `formatOptions`.
- `BatchGrouping`: the `refIds` loop, as a method proved against a
  bucket-map function and a first-seen key order.
- `Aggregation`: the checks one option goes through, the `subRef` split and
  the aggregation stages (the fast `boundTo` match and the slow match).
- `RowScatter`: the row loop, which fills and deletes buckets, and the
  null fill, both in place on an array of documents.
- `Resolver`: the loop of `execute` over the options, and the completion
  counter as a class whose state is tied to a pure `Step`/`Run` function.
- `QueryState`: the query's one-shot `subPopulate`, the decision the
  patched `exec` takes, and the document-level `subPopulate`.

## Model

| member | source | states |
|---|---|---|
| SchemaScan.PathBuffer.constructor | index.js:11 | the path buffer starts empty |
| SchemaScan.PathBuffer.Push | index.js:14 | the name is appended to the buffer |
| SchemaScan.PathBuffer.Pop | index.js:19 | the last name is removed; an empty buffer stays empty |
| SchemaScan.Handler.constructor | index.js:255 | the map of sub-reference paths starts empty and agrees with an empty call log |
| SchemaScan.Handler.Handle | index.js:258-260 | each call is logged, and the recorded map stays equal to the paths with a truthy `subRef` among the logged calls, with the last such call for a path winning |
| SchemaScan.Leaves | index.js:10-21 | the calls a walk makes, in depth-first order: a leaf gives one call under the `.`-join of the prefix and its name, an embedded schema the calls of its own walk under the extended prefix |
| SchemaScan.EachPathRecursive | index.js:10-21 | the handler receives exactly the walk's leaves in depth-first order, each with the `.`-join of the buffer prefix, its ancestors and its own name; a node with a sub-schema is never handed over; the buffer is back to its entry contents |
| SchemaScan.VisitPath | index.js:13-20 | the callback for one path pushes its name, hands a leaf to the handler under the joined path or walks an embedded schema, and leaves the buffer as it found it |
| SchemaScan.VisitedAreLeaves | index.js:13-17 | every path handed to the handler names a chain of sub-schemas that ends in a leaf carrying those options |
| SchemaScan.LeavesAreVisited | index.js:13-17 | conversely, every leaf of the schema tree is handed to the handler under its joined path |
| SchemaScan.Collected | index.js:258-260 | the map the handler builds from a call log: each call with a truthy `subRef` sets its path, later calls overwriting earlier ones |
| SchemaScan.CollectSubRefPaths | index.js:254-260 | the plugin's map holds exactly the leaf paths whose `subRef` is truthy |
| SchemaScan.CollectedKeys | index.js:258-260 | a path is recorded exactly when some handler call for it has a truthy `subRef` |
| SchemaScan.CollectedLastWins | index.js:259 | a recorded path holds the options of the last call for it that has a truthy `subRef` |
| OptionFormat.FormatOptions | index.js:83-94 | an array gives one options entry per element, and the first element alone decides: if it is an object every element is kept as is, otherwise every element, objects included, is wrapped as `{path: element}`; a single string or object gives exactly one entry |
| OptionFormat.FormatTextFirstList | index.js:86-87 | in an array whose first element is a string, a later element that is an object is wrapped too, and the wrapped entry names no path string |
| OptionFormat.WrapEach | index.js:87 | each element becomes `{path: element}`, with the same length and order |
| OptionFormat.FormatText | index.js:93 | a string `s` becomes `[{path: s}]`, naming the one path `s` |
| OptionFormat.FormatRecord | index.js:92 | a single options object `o` becomes `[o]` |
| OptionFormat.FormatObjectList | index.js:86 | a non-empty array whose first element is an object is returned unchanged, whatever the later elements are |
| OptionFormat.FormatEmptyList | index.js:89 | the empty array is returned as is |
| OptionFormat.FormatTextList | index.js:84-88 | an array of strings yields one `{path}` record per string, naming the same paths in the same order |
| OptionFormat.FormatIdempotent | index.js:83-94 | formatting an already formatted list returns it unchanged |
| DottedPath.Split | index.js:116 | `split('.')` yields at least one segment |
| DottedPath.SplitHasNoDots | index.js:116 | no segment of `split('.')` contains a '.' |
| DottedPath.Join | index.js:117 | `join('.')`: the segments with one '.' between neighbours |
| DottedPath.JoinSplit | index.js:116-117 | joining the segments with '.' gives back the original string |
| DottedPath.SplitJoin | index.js:116-117 | splitting a '.'-join of dot-free segments gives back the segments |
| DottedPath.SplitSubRef | index.js:116-117 | `rootRef` is the first '.'-segment of `subRef`, `subPathRef` the `.`-join of the rest |
| DottedPath.SubRefParts | index.js:116-117 | `rootRef` has no '.'; a `subRef` containing '.' is `rootRef + "." + subPathRef`, and one without a '.' is `rootRef` with an empty `subPathRef` |
| BatchGrouping.Keys | index.js:142 | one identifier per document, read at `option.path` |
| BatchGrouping.Grouping | index.js:138-146 | the bucket map: for each identifier read, the positions of the documents holding it, in batch order |
| BatchGrouping.Distinct | index.js:164 | the identifiers read, each once, in first-seen order, as `Object.keys(refIds)` lists them |
| BatchGrouping.Group | index.js:138-146 | the loop builds exactly the bucket map of the batch's identifiers and the keys in first-seen order |
| BatchGrouping.GroupingStep | index.js:144-145 | adding a document appends its position to its identifier's bucket, or creates the bucket |
| BatchGrouping.DistinctStep | index.js:144-145 | a new bucket is created, and its identifier added to the key order, exactly on an identifier's first sight |
| BatchGrouping.PositionsMembership | index.js:141-146 | a position is in the bucket of `k` exactly when the document there holds `k` |
| BatchGrouping.PositionsIncreasing | index.js:141-146 | a bucket lists its documents in batch order |
| BatchGrouping.GroupingPartitions | index.js:138-146 | the bucket keys are exactly the identifiers read; every document is in its own identifier's bucket and in no bucket for another identifier |
| BatchGrouping.BucketsDisjoint | index.js:144-145 | a document belongs to one bucket only |
| BatchGrouping.DistinctSpec | index.js:164 | the key order holds every identifier of the batch exactly once |
| BatchGrouping.OrderMatchesBuckets | index.js:164 | the key order and the bucket map have the same identifiers |
| Aggregation.Configure | index.js:108-136 | the checks of one option in the source's order: the option's schema path, its `subRef`, the root model in the registry, the `boundTo` strict equality, the array path, and the element type |
| Aggregation.BoundKey | index.js:156-157 | `ref._id \|\| ref` gives an identifier for a raw or populated reference, and throws exactly for null or undefined |
| Aggregation.BoundIds | index.js:155-158 | the fast match's values are one bound identifier per document, in batch order; it throws exactly when some document's bound reference is missing |
| Aggregation.ConfigureAccepts | index.js:108-136 | an accepted option names a schema path with a `subRef`, split into a dot-free root model and the array path; both exist; the array path declares an element, `arrayOfObjects` is exactly that element having no `type` and `elemRef` is its `ref`, and the element has no `type` or a `ref`; `boundTo` is set exactly when the option's `boundTo` is truthy and names a schema path, it is then that path, and that field references the root model |
| Aggregation.ConfigureSucceeds | index.js:108-136 | conversely, an option whose path, root model, `boundTo` field, array path and element pass every check is accepted, with the config built from the schema: the option's path, its known `boundTo` or none, the two `subRef` parts, `!type` and `ref` of the element |
| Aggregation.BoundToMismatchFails | index.js:111-124 | a `boundTo` field whose `ref` differs from the root model fails the strict-equality assertion, which reports the field's `ref` and the root model name |
| Aggregation.UnsupportedElementFails | index.js:111-136 | an array element that declares a `type` and no `ref` fails with the unsupported-type message, whether `boundTo` is absent, names no schema path, or passes the strict-equality check |
| Aggregation.MatchStage | index.js:150-166 | the `$match` stage is always produced on the slow way; only the fast way can throw |
| Aggregation.BuildPipeline | index.js:148-209 | building the stages throws only on the fast way (a missing bound reference) or for arrays of references (the referenced model is not registered) |
| Aggregation.PipelineShape | index.js:148-209 | the stages are `$match`, `$unwind` of the array, and `$replaceRoot` to the element (objects) or to `{_id: element}`; arrays of references add `$lookup` on `_id`/`_id` as `lookupOne`, its `$unwind` and a `$replaceRoot` to it |
| Aggregation.StrategiesShareTail | index.js:150-209 | the fast and the slow way differ only in the `$match` stage |
| Aggregation.SlowMatchIsBucketKeys | index.js:161-166 | without `boundTo`, the match is on the array path plus `._id` exactly for arrays of objects, over the bucket keys, each once |
| Aggregation.FastMatchIsBoundRefs | index.js:151-160 | with `boundTo`, the match is on `_id` over each document's bound identifier |
| Aggregation.FastMatchNeedsBoundRefs | index.js:155-158 | with `boundTo`, a document whose bound reference is null or missing makes the preparation throw |
| Aggregation.PlanField | index.js:106-209 | the synchronous part of one loop iteration: the checks, then the identifiers and buckets of the batch, then the stages; the first error is the one thrown |
| Aggregation.PlanFieldGroups | index.js:138-146 | a prepared field holds the batch's identifiers at `option.path` and their bucket map |
| Common.Doc.Set | index.js:226 | `doc.set(path, v)` writes `path` and leaves every other path as it was |
| RowScatter.Resolved | index.js:223-238 | a document ends up holding a row or `null`, never a raw identifier |
| RowScatter.FirstMatch | index.js:223-230 | the first row, in the order the aggregation returns them, whose `_id` is the identifier |
| RowScatter.FirstMatchSpec | index.js:223-230 | the chosen row is the earliest row whose `_id` is the identifier, and there is none exactly when no row matches |
| RowScatter.LaterRowsIgnored | index.js:224-229 | once an identifier is matched, later rows do not change what its documents get |
| RowScatter.SetAll | index.js:225-226 | the documents of a bucket get `path` set to the value; the other documents are unchanged |
| RowScatter.ClaimRow | index.js:224-230 | a row whose bucket is still present fills that bucket's documents with it and deletes the bucket; other rows change nothing |
| RowScatter.ScatterRows | index.js:223-231 | after the row loop, each document holds its first matching row (or is unchanged), and the remaining buckets are exactly the unmatched ones |
| RowScatter.FillNull | index.js:234-238 | the documents of the unmatched buckets get `null`; matched documents are unchanged |
| RowScatter.Scatter | index.js:222-238 | each document's field becomes its first matching row or `null`; only `option.path` is written, and the batch keeps its length and order |
| Resolver.Step | index.js:212-240 | one aggregation callback on the counter: ignored after an error; otherwise counted, a failure sets the flag and fires `cb(err)`, and a success fires `cb(null, docs)` when the count reaches the number of options |
| Resolver.Run | index.js:212-240 | the counter after a sequence of callbacks in arrival order |
| Resolver.RunSpec | index.js:212-240 | in any arrival order, the callback fires with the first error if one occurred, with the documents exactly when all options have completed without error, and otherwise not at all; so it fires at most once |
| Resolver.AbortedNeverDone | index.js:106-136 | when an option throws before its aggregation is sent, the documents are never delivered |
| Resolver.CounterStep | index.js:213-220 | while fewer completions than options have arrived, one more completion takes the counter one step and the callback has still fired at most once |
| Resolver.EmptyOptionsNeverSettle | index.js:83-106 | only the empty array formats to no options; then no aggregation is sent, and the counter with no completions has not fired the callback |
| Resolver.Applied | index.js:212-240 | the batch after a sequence of completions: each success before the first failure writes its rows, as `Scatter` does, and every later completion changes nothing |
| Resolver.AppliedStep | index.js:213-238 | one more completion writes its rows into the batch exactly when it succeeded and no earlier completion failed |
| Resolver.AppliedField | index.js:222-240 | when no aggregation failed, each requested field holds its aggregation's first matching row or `null`, unless a later completion wrote the same path |
| Resolver.AppliedUntouched | index.js:222-240 | a path that no completed option names keeps its value in every document |
| Resolver.Prepare | index.js:108-209 | the preparation of one option (checks, grouping loop, stages) yields that option's plan, or the error it throws |
| Resolver.Launch | index.js:101-212 | the options are formatted and prepared in order; the first one that throws ends the loop, and all earlier ones were prepared |
| Resolver.Resolution.constructor | index.js:103-104 | the counter starts at zero, with no error and no callback |
| Resolver.Resolution.Tally | index.js:213-220 | after an error a completion is ignored; otherwise it is counted, and a failure sets the flag and fires `cb(err)`; rows are scattered exactly for a success before any error |
| Resolver.Resolution.Complete | index.js:212-241 | a completion after an error changes nothing; otherwise it counts, and an error sets the flag and fires `cb(err)`; on a success the whole batch becomes `ApplyRows` of it (each document's field its first matching row or `null`) and `cb(null, docs)` fires when the count reaches the number of options |
| Resolver.Resolution.Drive | index.js:212-241 | for any order of distinct completions, the callbacks are the first error, or the documents exactly when every option completed; the batch afterwards is `Applied` to the completions |
| Resolver.Execute | index.js:100-243 | `execute` formats the options, prepares each in order, and hands back a fresh counter that has fired nothing; it throws exactly when some option's preparation fails |
| QueryState.Query.constructor | index.js:35 | a new query has no stored options |
| QueryState.Query.SubPopulate | index.js:32-41 | throws 'Plugin was not installed' when the plugin is missing, then 'subPopulate was already invoked' when options are stored; a falsy argument leaves the query unset; otherwise the options are stored |
| QueryState.SubPopulateStep | index.js:32-41 | a call throws exactly when the plugin is missing or options are already stored, and then keeps the stored options; a missing plugin throws 'Plugin was not installed' whatever is stored, and only an installed plugin with stored options throws 'subPopulate was already invoked'; otherwise a falsy argument leaves the query unset and any other argument is stored as given |
| QueryState.OneShot | index.js:35-39 | after options are stored, every later call throws and keeps the first options |
| QueryState.FalsyKeepsTransparent | index.js:37 | a falsy argument leaves `exec` transparent and a later call is still allowed |
| QueryState.ConfiguredQueryExecutes | index.js:39 | a stored argument reaches `execute` unchanged; an empty array is truthy and is stored |
| QueryState.Dispatch | index.js:49-72 | without stored options `exec` delegates unchanged; with them, a query error is rejected, falsy results resolve as they are, and documents go to `execute` with the stored options |
| QueryState.Query.Exec | index.js:49-72 | the patched `exec` takes the dispatch decision for the query's current state |
| QueryState.DocumentSubPopulateAsWritten | index.js:267-278 | the document method as written starts `execute` on the one-document batch exactly for truthy options, and never returns a resolved promise |
| QueryState.DocumentSubPopulateReturnsNothing | index.js:267-278 | called without options, the document method as written returns `undefined` |
| QueryState.DocumentSubPopulate | index.js:267-278 | the document method returns a promise in every case: already resolved without options, otherwise one resolving the single-document batch with the given options |
| QueryState.DocumentSubPopulateAgrees | index.js:270-276 | with options, the corrected method and the method as written agree |

## Left out

- The aggregation itself, `mongoose.model` and `collection.collectionName`
  (index.js:120, 192, 212) are library calls. The registry is a map given
  as a parameter, and each aggregation's result is an input: a failure or
  a sequence of rows.
- The monkey-patching of `exec`, the `op`/`cb` argument juggling and the
  double promise/callback signalling (index.js:23-24, 57-75) are async
  plumbing. Only the decision `exec` takes is modelled (`Dispatch`).
- Concurrency: the aggregations of one call complete in an arbitrary order,
  modelled as a sequence of completion events. Concurrent `execute` calls
  on shared documents are not modelled.
- Identifiers are an abstract type compared by equality. JavaScript's
  string coercion of `refIds` keys (index.js:144, 224) is not modelled, so
  neither are two distinct values with the same string form.
- The batch is an array of documents and a bucket holds positions, not
  object references, so the same document object appearing twice in a batch
  (aliasing) is not modelled.
- A document is one flat map from paths to values. Both `doc[option.path]`
  (index.js:142) and `doc.set(option.path, …)` address the same entry, so a
  dotted `option.path`, which bracket access does not traverse, is not
  distinguished.
- The `mongoose.Schema.Types.Mixed` argument of `set` and the `lean` flag
  (index.js:55, 100) have no effect on the model; `lean` is ignored by the
  source too.
- Extra keys of an options object are dropped: an option carries only its
  `path`.
- Only the parts of a schema path's options the plugin reads are modelled:
  `subRef`, `boundTo`, `ref` and `type[0]`. A missing schema path, a
  missing `subRef` or a non-array target throw a `TypeError`; its message
  text is not modelled.
- `assert.strictEqual` at index.js:124 is called without a message, so the
  runtime generates the text of its `AssertionError`. That text is not
  modelled: the error carries the two values compared, the `boundTo`
  field's `ref` and the root model name.
- A query result that is a single document (from `findOne`) is not
  modelled; results are an error, nothing, or a list of documents.
- What happens to an exception thrown by `execute` inside the query's
  callback is not modelled. `Execute` only reports that it threw.
- The value the document-level promise resolves to (`docs[0]`, the same
  document) is not modelled separately from the batch.
- `Resolver.Resolution.Complete` and `Resolver.Resolution.Drive`: a
  completion for an option whose preparation threw cannot happen, since its
  aggregation was never sent; the methods require that the option was
  prepared.
- `populableReferencesPaths` is collected but never read by `execute`
  (index.js:255-260). The model collects it and stops there.
- The model follows two behaviours of the code that read as unintended
  but are harmless. Arrays of objects and arrays of references are two
  independent tests (index.js:130-131), so an element with a `ref` and no
  `type` counts as both; the evident intent is that they exclude each
  other. The fast match's `$in` list has one entry per document
  (index.js:155-158), with no deduplication, while the slow match lists
  each identifier once.

## Findings

| source | as written | input that shows it | evidently intended | confidence | as-written member | corrected member |
|---|---|---|---|---|---|---|
| index.js:277 | the branch without options evaluates `Promise.resolve()` but does not return it, so the method returns `undefined` | `doc.subPopulate()` followed by `.then(...)` | return an already resolved promise, as the options branch returns a promise | high (not executed) | QueryState.DocumentSubPopulateReturnsNothing | QueryState.DocumentSubPopulate |
