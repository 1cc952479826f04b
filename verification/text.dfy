/**
  The string operations the client relies on: splitting on a separator,
  joining, and trimming by a character predicate (which covers both
  `strings.Trim(s, "/")` and `strings.TrimSpace`). Strings are sequences of
  decoded runes.
 */
module TextUtil {

  /** `strings.Split(s, string(c))`: the fields between occurrences of `c`; never empty. */
  function Split(s: string, c: char): (parts: seq<string>)
    ensures |parts| >= 1
  {
    if |s| == 0 then [""]
    else
      var rest := Split(s[1..], c);
      if s[0] == c then [""] + rest
      else [[s[0]] + rest[0]] + rest[1..]
  }

  /** No field of a split holds the separator. */
  lemma {:induction false} SplitFieldsFree(s: string, c: char)
    ensures forall i :: 0 <= i < |Split(s, c)| ==> c !in Split(s, c)[i]
  {
    if |s| > 0 {
      SplitFieldsFree(s[1..], c);
      var rest := Split(s[1..], c);
      if s[0] != c {
        assert c !in [s[0]] + rest[0];
      }
    }
  }

  /** `strings.Join(parts, sep)`. */
  function Join(parts: seq<string>, sep: string): string
  {
    if |parts| == 0 then ""
    else if |parts| == 1 then parts[0]
    else parts[0] + sep + Join(parts[1..], sep)
  }

  function Last<T>(xs: seq<T>): T
    requires |xs| > 0
  {
    xs[|xs| - 1]
  }

  /** Joining the fields again with the separator gives back the original string. */
  lemma {:induction false} JoinSplit(s: string, c: char)
    ensures Join(Split(s, c), [c]) == s
  {
    if |s| > 0 {
      var rest := Split(s[1..], c);
      JoinSplit(s[1..], c);
      if s[0] == c {
        assert Join([""] + rest, [c]) == "" + [c] + Join(rest, [c]);
      } else {
        var parts := [[s[0]] + rest[0]] + rest[1..];
        if |rest| == 1 {
          assert Join(rest, [c]) == rest[0];
        } else {
          assert Join(rest, [c]) == rest[0] + [c] + Join(rest[1..], [c]);
          assert parts[1..] == rest[1..];
        }
      }
    }
  }

  /** Splitting a joined list of separator-free fields gives the fields back. */
  lemma {:induction false} SplitJoin(parts: seq<string>, c: char)
    requires |parts| >= 1
    requires forall i :: 0 <= i < |parts| ==> c !in parts[i]
    ensures Split(Join(parts, [c]), c) == parts
  {
    if |parts| == 1 {
      SplitNoSeparator(parts[0], c);
    } else {
      SplitJoin(parts[1..], c);
      assert Join(parts, [c]) == parts[0] + ([c] + Join(parts[1..], [c]));
      SplitConcat(parts[0], Join(parts[1..], [c]), c);
      SplitNoSeparator(parts[0], c);
      assert [parts[0]] + parts[1..] == parts;
    }
  }

  /** A string without the separator is one field. */
  lemma {:induction false} SplitNoSeparator(s: string, c: char)
    requires c !in s
    ensures Split(s, c) == [s]
  {
    if |s| > 0 {
      SplitNoSeparator(s[1..], c);
      assert [s[0]] + s[1..] == s;
    }
  }

  /** Splitting a string that starts with `h`: a separator starts a new field, anything else extends the first one. */
  lemma SplitCons(h: char, s: string, c: char)
    ensures var rest := Split(s, c);
      Split([h] + s, c) == if h == c then [""] + rest else [[h] + rest[0]] + rest[1..]
  {
    assert ([h] + s)[0] == h;
    assert ([h] + s)[1..] == s;
  }

  /** Extending the first field commutes with appending more fields. */
  lemma ExtendFirst(h: char, left: seq<string>, right: seq<string>)
    requires |left| > 0
    ensures var all := left + right;
      [[h] + all[0]] + all[1..] == ([[h] + left[0]] + left[1..]) + right
  {
    assert (left + right)[1..] == left[1..] + right;
  }

  /** A separator between two strings splits their fields apart. */
  lemma {:induction false} SplitConcat(a: string, b: string, c: char)
    ensures Split(a + ([c] + b), c) == Split(a, c) + Split(b, c)
  {
    if |a| == 0 {
      assert a + ([c] + b) == [c] + b;
      SplitCons(c, b, c);
    } else {
      SplitConcat(a[1..], b, c);
      SplitConcatStep(a, b, c);
    }
  }

  lemma AppendAssoc<T>(x: seq<T>, y: seq<T>, z: seq<T>)
    ensures (x + y) + z == x + (y + z)
  {
  }

  /** The inductive step of `SplitConcat`: putting one rune in front of both sides. */
  lemma SplitConcatStep(a: string, b: string, c: char)
    requires |a| > 0
    requires Split(a[1..] + ([c] + b), c) == Split(a[1..], c) + Split(b, c)
    ensures Split(a + ([c] + b), c) == Split(a, c) + Split(b, c)
  {
    var tail := a[1..];
    assert a == [a[0]] + tail;
    AppendAssoc([a[0]], tail, [c] + b);
    SplitCons(a[0], tail + ([c] + b), c);
    SplitCons(a[0], tail, c);
    if a[0] != c {
      ExtendFirst(a[0], Split(tail, c), Split(b, c));
    } else {
      AppendAssoc([""], Split(tail, c), Split(b, c));
    }
  }

  /** The last field of a string that ends with the separator is empty. */
  lemma SplitTrailingSeparator(a: string, c: char)
    ensures Split(a + [c], c) == Split(a, c) + [""]
  {
    SplitConcat(a, "", c);
    assert a + ([c] + "") == a + [c];
  }

  /**
    Go's `indexFunc(s, f, false)` scanning from `i`: the first position at or
    after `i` whose rune does not satisfy `f`, or `|s|` when there is none.
   */
  function FirstOutside(s: string, f: char -> bool, i: nat): (n: nat)
    requires i <= |s|
    ensures i <= n <= |s|
    ensures forall k :: i <= k < n ==> f(s[k])
    ensures n < |s| ==> !f(s[n])
    decreases |s| - i
  {
    if i < |s| && f(s[i]) then FirstOutside(s, f, i + 1) else i
  }

  /**
    Go's `lastIndexFunc(s, f, false)` plus one, scanning down from `j`: the
    end of the longest prefix of `s[..j]` that does not end in a rune
    satisfying `f`.
   */
  function LastOutsideEnd(s: string, f: char -> bool, j: nat): (n: nat)
    requires j <= |s|
    ensures n <= j
    ensures forall k :: n <= k < j ==> f(s[k])
    ensures n > 0 ==> !f(s[n - 1])
  {
    if j > 0 && f(s[j - 1]) then LastOutsideEnd(s, f, j - 1) else j
  }

  /** `strings.TrimLeftFunc`: drops the longest prefix whose runes satisfy `f`. */
  function TrimLeftFunc(s: string, f: char -> bool): (r: string)
    ensures |r| <= |s| && r == s[|s| - |r|..]
    ensures forall k :: 0 <= k < |s| - |r| ==> f(s[k])
    ensures |r| > 0 ==> !f(r[0])
  {
    s[FirstOutside(s, f, 0)..]
  }

  /** `strings.TrimRightFunc`: drops the longest suffix whose runes satisfy `f`. */
  function TrimRightFunc(s: string, f: char -> bool): (r: string)
    ensures |r| <= |s| && r == s[..|r|]
    ensures forall k :: |r| <= k < |s| ==> f(s[k])
    ensures |r| > 0 ==> !f(r[|r| - 1])
  {
    s[..LastOutsideEnd(s, f, |s|)]
  }

  /** `strings.TrimFunc`: the left trim followed by the right trim. */
  function TrimFunc(s: string, f: char -> bool): (r: string)
  {
    TrimRightFunc(TrimLeftFunc(s, f), f)
  }

  /**
    Trimming keeps exactly the middle of the string: everything cut off on
    either side satisfies `f`, and the kept part neither starts nor ends with
    such a rune.
   */
  lemma TrimFuncKeepsMiddle(s: string, f: char -> bool)
    ensures var r := TrimFunc(s, f);
      var i := |s| - |TrimLeftFunc(s, f)|;
      && i + |r| <= |s|
      && r == s[i..i + |r|]
      && (forall k :: 0 <= k < i ==> f(s[k]))
      && (forall k :: i + |r| <= k < |s| ==> f(s[k]))
      && (|r| > 0 ==> !f(r[0]) && !f(r[|r| - 1]))
  {
    var l := TrimLeftFunc(s, f);
    MiddleOfTrims(s, l, TrimRightFunc(l, f), f);
  }

  /**
    The index reasoning behind `TrimFuncKeepsMiddle`, stated over the two
    trim results' characterising properties alone.
   */
  lemma MiddleOfTrims(s: string, l: string, r: string, f: char -> bool)
    requires |l| <= |s| && l == s[|s| - |l|..]
    requires forall k :: 0 <= k < |s| - |l| ==> f(s[k])
    requires |l| > 0 ==> !f(l[0])
    requires |r| <= |l| && r == l[..|r|]
    requires forall k :: |r| <= k < |l| ==> f(l[k])
    requires |r| > 0 ==> !f(r[|r| - 1])
    ensures var i := |s| - |l|;
      && i + |r| <= |s|
      && r == s[i..i + |r|]
      && (forall k :: 0 <= k < i ==> f(s[k]))
      && (forall k :: i + |r| <= k < |s| ==> f(s[k]))
      && (|r| > 0 ==> !f(r[0]) && !f(r[|r| - 1]))
  {
    var i := |s| - |l|;
    forall k | i + |r| <= k < |s|
      ensures f(s[k])
    {
      assert s[k] == l[k - i];
    }
    if |r| > 0 {
      assert r[0] == l[0];
    }
  }

  /** `unicode.IsSpace`: the runes with the Unicode White_Space property. */
  predicate IsSpace(c: char) {
    || c == '\t' || c == '\n' || c == '\U{0B}' || c == '\U{0C}' || c == '\r' || c == ' '
    || c == '\U{85}' || c == '\U{A0}' || c == '\U{1680}'
    || ('\U{2000}' <= c <= '\U{200A}')
    || c == '\U{2028}' || c == '\U{2029}' || c == '\U{202F}' || c == '\U{205F}' || c == '\U{3000}'
  }

  /** `strings.TrimSpace`. */
  function TrimSpace(s: string): string
  {
    TrimFunc(s, IsSpace)
  }

  predicate IsSlash(c: char) {
    c == '/'
  }

  /** `strings.Trim(s, "/")`. */
  function TrimSlashes(s: string): string
  {
    TrimFunc(s, IsSlash)
  }
}
