/**
  The slash-separated path operations the client applies to job paths and
  to the `Location` header: `path.Clean` and `path.Base`.

  `path.Clean` is modelled by its lexical rules: the path is cut at every
  slash; empty and `.` elements are dropped; a `..` element removes the
  element before it when there is one that is not itself `..`, is dropped at
  the start of a rooted path, and is kept otherwise. A rooted result starts
  with a slash, and an empty unrooted result is `.`.
 */
module PathLex {
  import opened TextUtil

  predicate Rooted(p: string) {
    |p| > 0 && p[0] == '/'
  }

  /** What `path.Clean` does with one element, given the elements kept so far. */
  function Step(kept: seq<string>, e: string, rooted: bool): seq<string>
  {
    if e == "" || e == "." then kept
    else if e == ".." then
      if |kept| > 0 && Last(kept) != ".." then kept[..|kept| - 1]
      else if rooted then kept
      else kept + [".."]
    else kept + [e]
  }

  /** `Step` applied to each element in turn. */
  function Process(kept: seq<string>, fields: seq<string>, rooted: bool): seq<string>
    decreases |fields|
  {
    if |fields| == 0 then kept
    else Process(Step(kept, fields[0], rooted), fields[1..], rooted)
  }

  /** The elements `path.Clean` keeps, in order. */
  function Elements(p: string): seq<string>
  {
    Process([], Split(p, '/'), Rooted(p))
  }

  /** A kept element: non-empty, slash-free and never `.`. */
  predicate Proper(e: string) {
    e != "" && e != "." && '/' !in e
  }

  predicate AllProper(es: seq<string>) {
    forall i :: 0 <= i < |es| ==> Proper(es[i])
  }

  lemma {:induction false} ProcessProper(kept: seq<string>, fields: seq<string>, rooted: bool)
    requires AllProper(kept)
    requires forall i :: 0 <= i < |fields| ==> '/' !in fields[i]
    ensures AllProper(Process(kept, fields, rooted))
    decreases |fields|
  {
    if |fields| > 0 {
      ProcessProper(Step(kept, fields[0], rooted), fields[1..], rooted);
    }
  }

  lemma ElementsProper(p: string)
    ensures AllProper(Elements(p))
  {
    SplitFieldsFree(p, '/');
    ProcessProper([], Split(p, '/'), Rooted(p));
  }

  /** `path.Clean`. */
  function Clean(p: string): string
  {
    var es := Elements(p);
    if Rooted(p) then "/" + Join(es, "/")
    else if |es| == 0 then "."
    else Join(es, "/")
  }

  /** `path.Base`: the last element after trailing slashes are removed. */
  function Base(p: string): string
  {
    if p == "" then "."
    else
      var q := TrimRightFunc(p, IsSlash);
      var b := Last(Split(q, '/'));
      if b == "" then "/" else b
  }

  /** Processing runs left to right, so a concatenation is processed in two goes. */
  lemma {:induction false} ProcessAppend(kept: seq<string>, a: seq<string>, b: seq<string>, rooted: bool)
    ensures Process(kept, a + b, rooted) == Process(Process(kept, a, rooted), b, rooted)
    decreases |a|
  {
    if |a| == 0 {
      assert a + b == b;
    } else {
      assert (a + b)[0] == a[0];
      assert (a + b)[1..] == a[1..] + b;
      ProcessAppend(Step(kept, a[0], rooted), a[1..], b, rooted);
    }
  }

  /** Ordinary elements are kept as they are. */
  predicate Plain(e: string) {
    Proper(e) && e != ".."
  }

  lemma {:induction false} ProcessPlain(kept: seq<string>, fields: seq<string>, rooted: bool)
    requires forall i :: 0 <= i < |fields| ==> Plain(fields[i])
    ensures Process(kept, fields, rooted) == kept + fields
    decreases |fields|
  {
    if |fields| > 0 {
      ProcessPlain(kept + [fields[0]], fields[1..], rooted);
      assert kept + [fields[0]] + fields[1..] == kept + fields;
    }
  }

  /** Joining proper elements with slashes gives a string with no slash at either end. */
  lemma {:induction false} JoinProperEnds(es: seq<string>)
    requires |es| > 0 && AllProper(es)
    ensures var j := Join(es, "/"); |j| > 0 && j[0] != '/' && j[|j| - 1] != '/'
    ensures Join(es, "/")[0] == es[0][0]
  {
    if |es| > 1 {
      JoinProperEnds(es[1..]);
      var j := Join(es, "/");
      assert j == es[0] + "/" + Join(es[1..], "/");
      assert j[0] == es[0][0];
    }
  }

  /** `path.Base` of a string with no trailing slash is its last slash-separated field. */
  lemma BaseNoTrailingSlash(c: string)
    requires |c| > 0 && c[|c| - 1] != '/'
    ensures Base(c) == if Last(Split(c, '/')) == "" then "/" else Last(Split(c, '/'))
  {
    assert TrimRightFunc(c, IsSlash) == c;
  }

  /** The base of slash-joined proper elements is the last one. */
  lemma BaseOfJoin(es: seq<string>)
    requires |es| > 0 && AllProper(es)
    ensures Base(Join(es, "/")) == Last(es)
  {
    JoinProperEnds(es);
    SplitJoin(es, '/');
    BaseNoTrailingSlash(Join(es, "/"));
  }

  /** A leading slash does not change the base of slash-joined proper elements. */
  lemma BaseOfRootedJoin(es: seq<string>)
    requires |es| > 0 && AllProper(es)
    ensures Base("/" + Join(es, "/")) == Last(es)
  {
    var j := Join(es, "/");
    JoinProperEnds(es);
    SplitJoin(es, '/');
    assert "/" + j == [] + (['/'] + j);
    SplitConcat([], j, '/');
    var c := "/" + j;
    assert c[|c| - 1] == j[|j| - 1];
    BaseNoTrailingSlash(c);
  }

  /**
    The base of a cleaned path is its last kept element; with no elements
    it is `/` for a rooted path and `.` otherwise.
   */
  lemma BaseOfClean(p: string)
    ensures Base(Clean(p)) ==
      if |Elements(p)| == 0 then (if Rooted(p) then "/" else ".")
      else Last(Elements(p))
  {
    var es := Elements(p);
    ElementsProper(p);
    if |es| == 0 {
      if Rooted(p) {
        assert Clean(p) == "/";
        assert TrimRightFunc("/", IsSlash) == "";
      } else {
        assert Clean(p) == ".";
        assert TrimRightFunc(".", IsSlash) == ".";
        SplitNoSeparator(".", '/');
      }
    } else if Rooted(p) {
      BaseOfRootedJoin(es);
    } else {
      BaseOfJoin(es);
    }
  }

  /** The empty fields a leading or trailing slash makes. */
  function Edge(slash: string): seq<string>
  {
    if slash == "/" then [""] else []
  }

  /** A leading or trailing slash adds one empty field at that end. */
  lemma SplitAround(j: string, lead: string, trail: string)
    requires lead == "" || lead == "/"
    requires trail == "" || trail == "/"
    ensures Split(lead + j + trail, '/') == Edge(lead) + Split(j, '/') + Edge(trail)
  {
    var mid := j + trail;
    if trail == "/" {
      SplitTrailingSeparator(j, '/');
    } else {
      assert mid == j;
    }
    if lead == "/" {
      assert lead + j + trail == [] + (['/'] + mid);
      SplitConcat([], mid, '/');
    } else {
      assert lead + j + trail == mid;
    }
  }

  /** Empty fields at either end are dropped and ordinary ones kept. */
  lemma ProcessBetweenEdges(segs: seq<string>, lead: string, trail: string, rooted: bool)
    requires forall i :: 0 <= i < |segs| ==> Plain(segs[i])
    ensures Process([], Edge(lead) + segs + Edge(trail), rooted) == segs
  {
    ProcessAppend([], Edge(lead) + segs, Edge(trail), rooted);
    ProcessAppend([], Edge(lead), segs, rooted);
    assert Process([], Edge(lead), rooted) == [];
    ProcessPlain([], segs, rooted);
    assert [] + segs == segs;
    assert Process(segs, Edge(trail), rooted) == segs;
  }

  /** Slashes around a slash-joined list of ordinary elements are dropped by `path.Clean`. */
  lemma ElementsOfPlainJoin(segs: seq<string>, lead: string, trail: string)
    requires |segs| > 0
    requires forall i :: 0 <= i < |segs| ==> Plain(segs[i])
    requires lead == "" || lead == "/"
    requires trail == "" || trail == "/"
    ensures Elements(lead + Join(segs, "/") + trail) == segs
  {
    var p := lead + Join(segs, "/") + trail;
    SplitJoin(segs, '/');
    SplitAround(Join(segs, "/"), lead, trail);
    ProcessBetweenEdges(segs, lead, trail, Rooted(p));
  }

  /** An ordinary last element of a path, with or without a trailing slash, is the last one kept. */
  lemma ElementsEndWith(p: string, seg: string, trail: string)
    requires Plain(seg)
    requires trail == "" || trail == "/"
    ensures var es := Elements(p + "/" + seg + trail); |es| > 0 && Last(es) == seg
  {
    var rest := seg + trail;
    var q := p + "/" + seg + trail;
    assert q == p + (['/'] + rest);
    SplitConcat(p, rest, '/');
    SplitNoSeparator(seg, '/');
    SplitAround(seg, "", trail);
    assert "" + seg + trail == rest;
    assert Split(rest, '/') == [seg] + Edge(trail);
    var rooted := Rooted(q);
    var before := Process([], Split(p, '/'), rooted);
    ProcessAppend([], Split(p, '/'), [seg] + Edge(trail), rooted);
    ProcessAppend(before, [seg], Edge(trail), rooted);
    assert Process(before, [seg], rooted) == before + [seg];
    assert Process(before + [seg], Edge(trail), rooted) == before + [seg];
  }
}
