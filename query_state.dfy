/** The entry points: `Query.prototype.subPopulate` (a one-shot setter on
    the query), the decision `exec` makes once the query has run, and the
    document-level `subPopulate` method the plugin installs. */
module QueryState {
  import opened Common
  import opened OptionFormat

  /** JavaScript falsiness of a populate argument: undefined or null
      (`None`) and the empty string. Arrays and objects are truthy. */
  predicate Falsy(options: Option<Arg>) {
    options.None? || options == Some(Text(""))
  }

  /** What the underlying `exec` hands to its callback. */
  datatype QueryResult = QueryFailed(error: Error) | NoDocs | Found(docs: seq<Doc>)

  /** What the patched `exec` does. */
  datatype Action =
    | Delegate                              // the original exec, unchanged
    | Reject(error: Error)                  // the query itself failed
    | ResolveAsIs                           // docs falsy: no resolution
    | RunExecute(docs: seq<Doc>, options: Arg)

  /** The `exec` decision: transparent without `_subPopulate`; otherwise
      errors pass through, a falsy result resolves as it is, and documents
      go to `execute` with the stored options. */
  function Dispatch(pending: Option<Arg>, result: QueryResult): (a: Action)
    ensures a.Delegate? <==> pending.None?
    ensures a.RunExecute? <==> pending.Some? && result.Found?
    ensures a.RunExecute? ==> a.docs == result.docs && a.options == pending.value
    ensures a.Reject? ==> result.QueryFailed? && a.error == result.error
    ensures pending.Some? && result.QueryFailed? ==> a == Reject(result.error)
    ensures pending.Some? && result.NoDocs? ==> a == ResolveAsIs
  {
    if pending.None? then Delegate
    else
      match result
      case QueryFailed(e) => Reject(e)
      case NoDocs => ResolveAsIs
      case Found(docs) => RunExecute(docs, pending.value)
  }

  /** The query's `_subPopulate` after a call, and what the call threw. */
  datatype Configured = Configured(thrown: Option<Error>, pending: Option<Arg>)

  /** `Query.prototype.subPopulate(options)`: the plugin check, then the
      one-shot check, then a falsy argument leaves the query as it is. */
  function SubPopulateStep(installed: bool, pending: Option<Arg>, options: Option<Arg>): (r: Configured)
    ensures r.thrown.None? <==> installed && pending.None?
    ensures r.thrown.Some? ==> r.pending == pending
    ensures !installed ==> r.thrown == Some(ConfigError(NotInstalledMessage))
    ensures installed && pending.Some? ==> r.thrown == Some(ConfigError(AlreadyInvokedMessage))
    ensures r.thrown.None? ==> (r.pending.Some? <==> !Falsy(options)) && (r.pending.Some? ==> r.pending == options)
  {
    if !installed then Configured(Some(ConfigError(NotInstalledMessage)), pending)
    else if pending.Some? then Configured(Some(ConfigError(AlreadyInvokedMessage)), pending)
    else if Falsy(options) then Configured(None, None)
    else Configured(None, options)
  }

  /** Once options are stored, every later call throws and keeps them. */
  lemma OneShot(installed: bool, first: Option<Arg>, later: seq<Option<Arg>>)
    requires installed && !Falsy(first)
    ensures var c := SubPopulateStep(installed, None, first);
      c.thrown.None? && c.pending == first &&
      forall k :: 0 <= k < |later| ==>
        SubPopulateStep(installed, c.pending, later[k]) ==
          Configured(Some(ConfigError(AlreadyInvokedMessage)), first)
  {
  }

  /** A falsy argument leaves `_subPopulate` unset, so `exec` stays
      transparent and a later call is still accepted. */
  lemma FalsyKeepsTransparent(options: Option<Arg>, next: Option<Arg>, result: QueryResult)
    requires Falsy(options)
    ensures var c := SubPopulateStep(true, None, options);
      c.thrown.None? && Dispatch(c.pending, result) == Delegate &&
      SubPopulateStep(true, c.pending, next).thrown.None?
  {
  }

  /** After one accepted call, the query's results go to `execute` with
      exactly the options given; an empty list is truthy and is accepted. */
  lemma ConfiguredQueryExecutes(options: Option<Arg>, docs: seq<Doc>)
    requires !Falsy(options)
    ensures var c := SubPopulateStep(true, None, options);
      c.thrown.None? && Dispatch(c.pending, Found(docs)) == RunExecute(docs, options.value)
    ensures SubPopulateStep(true, None, Some(List([]))).pending == Some(List([]))
  {
  }

  /** A query object: whether its model's schema has the plugin, and the
      stored `_subPopulate` options. */
  class Query {
    const pluginInstalled: bool
    var subPopulate: Option<Arg>

    constructor (pluginInstalled: bool)
      ensures this.pluginInstalled == pluginInstalled && subPopulate.None?
    {
      this.pluginInstalled := pluginInstalled;
      subPopulate := None;
    }

    /** Returns the error thrown, if any; otherwise the call returned the
        query itself for chaining. The method updates the query's field as
        the source does; `SubPopulateStep` is the same decision on values,
        which the lemmas above reason about, and the ensures ties the two. */
    method SubPopulate(options: Option<Arg>) returns (thrown: Option<Error>)
      modifies this
      ensures Configured(thrown, subPopulate) == SubPopulateStep(pluginInstalled, old(subPopulate), options)
    {
      if !pluginInstalled {
        return Some(ConfigError(NotInstalledMessage));
      }
      if subPopulate.Some? {
        return Some(ConfigError(AlreadyInvokedMessage));
      }
      if Falsy(options) {
        return None;
      }
      subPopulate := options;
      return None;
    }

    /** The patched `exec`, once the underlying query has called back: the
        branches of the source's callback, read off the query's field.
        `Dispatch` is the same decision as a function of values, used by the
        lemmas; the ensures ties the two. */
    method Exec(result: QueryResult) returns (a: Action)
      ensures a == Dispatch(subPopulate, result)
    {
      if subPopulate.None? {
        return Delegate;
      }
      match result {
        case QueryFailed(e) => a := Reject(e);
        case NoDocs => a := ResolveAsIs;
        case Found(docs) => a := RunExecute(docs, subPopulate.value);
      }
    }
  }

  /** What the document-level `subPopulate(options)` returns. */
  datatype DocumentCall =
    | Resolving(batch: seq<Doc>, options: Arg)  // a promise of execute on [this]
    | ResolvedPromise                          // Promise.resolve()
    | NoReturn                                 // undefined

  /** As written: without options the method evaluates `Promise.resolve()`
      but does not return it. */
  function DocumentSubPopulateAsWritten(self: Doc, options: Option<Arg>): (r: DocumentCall)
    ensures r != ResolvedPromise
    ensures r.Resolving? <==> !Falsy(options)
  {
    if Falsy(options) then NoReturn else Resolving([self], options.value)
  }

  /** Called without options, the method as written returns undefined, so
      `child.subPopulate().then(...)` fails. */
  lemma DocumentSubPopulateReturnsNothing(self: Doc)
    ensures DocumentSubPopulateAsWritten(self, None) == NoReturn
  {
  }

  /** As evidently intended: without options, an already resolved promise. */
  function DocumentSubPopulate(self: Doc, options: Option<Arg>): (r: DocumentCall)
    ensures r != NoReturn
    ensures r.Resolving? <==> !Falsy(options)
    ensures r.Resolving? ==> r.batch == [self] && r.options == options.value
  {
    if Falsy(options) then ResolvedPromise else Resolving([self], options.value)
  }

  /** The correction changes only the call without options. */
  lemma DocumentSubPopulateAgrees(self: Doc, options: Option<Arg>)
    requires !Falsy(options)
    ensures DocumentSubPopulate(self, options) == DocumentSubPopulateAsWritten(self, options)
  {
  }
}
