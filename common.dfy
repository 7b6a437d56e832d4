/** Values shared by every part of the sub-reference populate plugin:
    identifiers, the values a document field can hold, the records the
    plugin reads from a schema, and the error kinds it raises. */
module Common {

  datatype Option<+T> = None | Some(value: T)

  datatype Result<+T> = Ok(value: T) | Err(error: Error)

  /** A document identifier; only its equality matters to the plugin. */
  datatype ObjectId = ObjectId(n: nat)

  /** A row produced by the aggregation: an array element (or the document
      it references), identified by its `_id`. */
  datatype Row = Row(id: ObjectId, attrs: map<string, string>)

  /** What a document field holds: nothing, `null`, a raw identifier, or a
      populated row. */
  datatype Value = Undefined | Null | Id(id: ObjectId) | Embedded(row: Row)

  /** A document, seen as the values at its (dotted) paths. */
  datatype Doc = Doc(fields: map<string, Value>)
  {
    /** `doc[path]` / `doc.get(path)`: a missing path reads as undefined. */
    function Get(path: string): Value {
      if path in fields then fields[path] else Undefined
    }

    /** `doc.set(path, v)`: only `path` changes. */
    function Set(path: string, v: Value): (d: Doc)
      ensures d.Get(path) == v
      ensures forall p :: p != path ==> d.Get(p) == Get(p)
    {
      Doc(fields[path := v])
    }
  }

  /** `options.type[0]` of an array path: whether the element declares its
      own `type`, and its `ref` (if any). */
  datatype ElementDecl = ElementDecl(hasType: bool, ref: Option<string>)

  /** The options of one schema path that the plugin reads. `elem` is
      `None` when the path is not declared as an array. */
  datatype FieldOptions = FieldOptions(
    subRef: Option<string>,
    boundTo: Option<string>,
    ref: Option<string>,
    elem: Option<ElementDecl>)

  /** JavaScript truthiness of an optional string option: absent and the
      empty string are falsy. */
  predicate Truthy(s: Option<string>) {
    s.Some? && s.value != ""
  }

  const UnsupportedMessage: string :=
    "Unsupported sub-reference type. Sub-references are valid only for array of subdocuments and array of refs."
  const NotInstalledMessage: string := "Plugin was not installed"
  const AlreadyInvokedMessage: string := "subPopulate was already invoked"

  datatype Error =
    | TypeError(what: string)           // property read on undefined/null
    | MissingSchema(modelName: string)  // model registry has no such name
    | AssertionError(message: string)   // a failed `assert` of the plugin
    | StrictEqualFailed(actual: Option<string>, expected: string)
                                        // a failed `assert.strictEqual`, with the
                                        // two values compared
    | ConfigError(message: string)      // an Error thrown by the query method
    | StoreError(message: string)       // the aggregation failed
}
