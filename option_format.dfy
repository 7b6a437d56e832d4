/** `formatOptions`: the accepted shapes of a populate argument (a path
    string, an options object, or a list of either) normalised to a list of
    options objects. */
module OptionFormat {
  import opened Common

  /** A populate argument: a string, an object `{path: ...}`, or an array.
      `typeof` of a record and of an array is 'object'. */
  datatype Arg = Text(s: string) | Record(path: Arg) | List(items: seq<Arg>)

  predicate IsObject(a: Arg) {
    !a.Text?
  }

  /** `options.map((o) => ({ path: o }))`. */
  function WrapEach(items: seq<Arg>): (r: seq<Arg>)
    ensures |r| == |items|
    ensures forall k :: 0 <= k < |items| ==> r[k] == Record(items[k])
  {
    seq(|items|, k requires 0 <= k < |items| => Record(items[k]))
  }

  /** Only the FIRST element of an array decides whether it is wrapped. */
  function FormatOptions(options: Arg): (r: seq<Arg>)
    ensures options.List? ==> |r| == |options.items|
    ensures !options.List? ==> |r| == 1
    ensures options.List? && |options.items| > 0 ==>
      forall k :: 0 <= k < |r| ==>
        r[k] == (if IsObject(options.items[0]) then options.items[k] else Record(options.items[k]))
  {
    match options
    case List(items) =>
      if |items| > 0 then
        if IsObject(items[0]) then items else WrapEach(items)
      else items
    case Record(_) => [options]
    case Text(_) => [Record(options)]
  }

  /** The path string an options object names, when it names one. */
  function PathOf(option: Arg): Option<string> {
    match option
    case Record(Text(p)) => Some(p)
    case _ => None
  }

  /** The paths of the normalised list, or None when one entry has none. */
  function PathsOf(options: seq<Arg>): (r: Option<seq<string>>)
    ensures r.Some? ==> |r.value| == |options|
    ensures r.Some? <==> forall k :: 0 <= k < |options| ==> PathOf(options[k]).Some?
    ensures r.Some? ==> forall k :: 0 <= k < |options| ==> PathOf(options[k]) == Some(r.value[k])
  {
    if options == [] then Some([])
    else
      match PathsOf(options[..|options| - 1])
      case None => None
      case Some(init) =>
        match PathOf(options[|options| - 1])
        case None => None
        case Some(p) => Some(init + [p])
  }

  predicate AllText(items: seq<Arg>) {
    forall k :: 0 <= k < |items| ==> items[k].Text?
  }

  function Texts(items: seq<Arg>): (r: seq<string>)
    requires AllText(items)
    ensures |r| == |items| && forall k :: 0 <= k < |items| ==> r[k] == items[k].s
  {
    seq(|items|, k requires 0 <= k < |items| => items[k].s)
  }

  /** A path string becomes the one-entry list naming that path. */
  lemma FormatText(s: string)
    ensures FormatOptions(Text(s)) == [Record(Text(s))]
    ensures PathsOf(FormatOptions(Text(s))) == Some([s])
  {
    var r := PathsOf([Record(Text(s))]);
    assert PathOf(Record(Text(s))) == Some(s);
    assert r.Some? && |r.value| == 1 && r.value[0] == s;
    assert r.value == [s];
  }

  /** A single options object becomes a one-entry list holding it. */
  lemma FormatRecord(path: Arg)
    ensures FormatOptions(Record(path)) == [Record(path)]
  {
  }

  /** A non-empty list whose first entry is an object is kept as it is,
      whatever the later entries are. */
  lemma FormatObjectList(items: seq<Arg>)
    requires |items| > 0 && IsObject(items[0])
    ensures FormatOptions(List(items)) == items
  {
  }

  /** A list whose first entry is a path string has EVERY entry wrapped as
      a path, even the later entries that are objects. */
  lemma FormatTextFirstList(items: seq<Arg>, k: nat)
    requires |items| > 0 && items[0].Text?
    requires k < |items| && IsObject(items[k])
    ensures |FormatOptions(List(items))| == |items|
    ensures FormatOptions(List(items))[k] == Record(items[k])
    ensures PathOf(FormatOptions(List(items))[k]).None?
  {
  }

  /** The empty list stays empty: nothing is resolved. */
  lemma FormatEmptyList()
    ensures FormatOptions(List([])) == []
  {
  }

  /** A list of path strings yields the same paths, same length, same
      order. */
  lemma {:induction false} FormatTextList(items: seq<Arg>)
    requires AllText(items)
    ensures |FormatOptions(List(items))| == |items|
    ensures PathsOf(FormatOptions(List(items))) == Some(Texts(items))
  {
    var r := FormatOptions(List(items));
    if |items| > 0 {
      assert r == WrapEach(items);
    }
    var paths := PathsOf(r);
    assert paths.Some? by {
      forall k | 0 <= k < |r| ensures PathOf(r[k]).Some? {
        assert r[k] == Record(Text(items[k].s));
      }
    }
    assert paths.value == Texts(items) by {
      forall k | 0 <= k < |r| ensures paths.value[k] == Texts(items)[k] {
        assert r[k] == Record(Text(items[k].s));
        assert PathOf(r[k]) == Some(paths.value[k]);
      }
    }
  }

  /** Normalising is idempotent: the result, given again as a list, comes
      back unchanged. */
  lemma FormatIdempotent(options: Arg)
    ensures FormatOptions(List(FormatOptions(options))) == FormatOptions(options)
  {
    var r := FormatOptions(options);
    if |r| > 0 {
      match options
      case List(items) =>
        if !IsObject(items[0]) {
          assert r[0] == Record(items[0]);
        }
      case _ =>
    }
  }
}
