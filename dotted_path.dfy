/** Dotted paths: JavaScript's `s.split('.')` and `parts.join('.')`, and the
    split of a `subRef` option into its root model and the path below it. */
module DottedPath {

  /** Index of the first '.' in `s`. */
  function FirstDot(s: string): (i: nat)
    requires '.' in s
    ensures i < |s| && s[i] == '.' && '.' !in s[..i]
  {
    if s[0] == '.' then 0
    else
      var i := FirstDot(s[1..]);
      assert s[..i + 1] == [s[0]] + s[1..][..i];
      i + 1
  }

  /** `s.split('.')`: never empty; empty segments are kept. */
  function Split(s: string): (parts: seq<string>)
    ensures |parts| >= 1
    decreases |s|
  {
    if '.' !in s then [s]
    else
      var i := FirstDot(s);
      [s[..i]] + Split(s[i + 1..])
  }

  /** `parts.join('.')`; the empty list joins to "". */
  function Join(parts: seq<string>): string {
    if |parts| == 0 then ""
    else if |parts| == 1 then parts[0]
    else parts[0] + "." + Join(parts[1..])
  }

  ghost predicate NoDots(parts: seq<string>) {
    forall k :: 0 <= k < |parts| ==> '.' !in parts[k]
  }

  /** No segment of a split holds a '.'. */
  lemma {:induction false} SplitHasNoDots(s: string)
    ensures NoDots(Split(s))
    decreases |s|
  {
    if '.' in s {
      var i := FirstDot(s);
      SplitHasNoDots(s[i + 1..]);
    }
  }

  /** Joining the segments of a split gives the string back. */
  lemma {:induction false} JoinSplit(s: string)
    ensures Join(Split(s)) == s
    decreases |s|
  {
    if '.' in s {
      var i := FirstDot(s);
      var rest := Split(s[i + 1..]);
      JoinSplit(s[i + 1..]);
      assert ([s[..i]] + rest)[1..] == rest;
      assert s == s[..i] + "." + s[i + 1..];
    }
  }

  lemma FirstDotAfterSegment(p: string, t: string)
    requires '.' !in p
    ensures '.' in p + "." + t && FirstDot(p + "." + t) == |p|
  {
    var s := p + "." + t;
    assert s[|p|] == '.';
    assert s[..|p|] == p;
  }

  /** Splitting a dot-free segment, a '.', and a tail gives the segment
      followed by the split of the tail. */
  lemma SplitCons(p: string, t: string)
    requires '.' !in p
    ensures Split(p + "." + t) == [p] + Split(t)
  {
    var s := p + "." + t;
    FirstDotAfterSegment(p, t);
    assert s[..|p|] == p && s[|p| + 1..] == t;
  }

  /** Splitting a join of dot-free segments gives the segments back. */
  lemma {:induction false} SplitJoin(parts: seq<string>)
    requires |parts| >= 1 && NoDots(parts)
    ensures Split(Join(parts)) == parts
  {
    if |parts| > 1 {
      var p, rest := parts[0], parts[1..];
      assert Join(parts) == p + "." + Join(rest);
      SplitCons(p, Join(rest));
      assert NoDots(rest) by {
        forall k | 0 <= k < |rest| ensures '.' !in rest[k] {
          assert rest[k] == parts[k + 1];
        }
      }
      SplitJoin(rest);
      assert parts == [p] + rest;
    }
  }

  /** `const [rootRef, ...rest] = subRef.split('.'); subPathRef = rest.join('.')`. */
  function SplitSubRef(subRef: string): (r: (string, string)) {
    var parts := Split(subRef);
    (parts[0], Join(parts[1..]))
  }

  /** The root is the first segment and holds no '.'; when the option has a
      '.', it is the root, a '.', then the sub-path; otherwise it is the
      root alone and the sub-path is empty. */
  lemma SubRefParts(subRef: string)
    ensures '.' !in SplitSubRef(subRef).0
    ensures '.' in subRef ==> subRef == SplitSubRef(subRef).0 + "." + SplitSubRef(subRef).1
    ensures '.' !in subRef ==> SplitSubRef(subRef) == (subRef, "")
  {
    var parts := Split(subRef);
    SplitHasNoDots(subRef);
    JoinSplit(subRef);
    if '.' in subRef {
      var i := FirstDot(subRef);
      assert |Split(subRef[i + 1..])| >= 1;
      assert |parts| > 1;
    }
  }
}
