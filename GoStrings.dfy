/** The part of Go's `strings` package the handlers rely on, for a
    one-character separator: `Index`, `Split` and `SplitAfter`. */
module GoStrings {

  /** `strings.Index(s, string(c))`, except that "not found" is `|s|`
      rather than -1. */
  function Index(s: string, c: char): (i: nat)
    ensures i <= |s|
    ensures i < |s| ==> s[i] == c
    ensures forall j :: 0 <= j < i ==> s[j] != c
    ensures i == |s| <==> c !in s
  {
    if |s| == 0 then 0
    else if s[0] == c then 0
    else 1 + Index(s[1..], c)
  }

  /** `strings.Split(s, string(sep))`: the substrings between the
      separators. An empty string or one without the separator gives a
      single part. */
  function Split(s: string, sep: char): (parts: seq<string>)
    ensures |parts| >= 1
    decreases |s|
  {
    var i := Index(s, sep);
    if i == |s| then [s]
    else [s[..i]] + Split(s[i + 1..], sep)
  }

  /** `strings.SplitAfter(s, string(sep))`: like `Split`, but every part
      except the last keeps its trailing separator. */
  function SplitAfter(s: string, sep: char): (parts: seq<string>)
    ensures |parts| >= 1
    decreases |s|
  {
    var i := Index(s, sep);
    if i == |s| then [s]
    else [s[..i + 1]] + SplitAfter(s[i + 1..], sep)
  }

  /** `strings.Join(parts, string(sep))`, the inverse of `Split`. */
  function Join(parts: seq<string>, sep: char): string
    requires |parts| >= 1
  {
    if |parts| == 1 then parts[0]
    else parts[0] + [sep] + Join(parts[1..], sep)
  }

  /** Splitting at the first separator: the text before it is the first
      part and the rest is split again. */
  lemma SplitAtFirst(a: string, sep: char, rest: string)
    requires sep !in a
    ensures Split(a + [sep] + rest, sep) == [a] + Split(rest, sep)
    ensures SplitAfter(a + [sep] + rest, sep) == [a + [sep]] + SplitAfter(rest, sep)
  {
    var s := a + [sep] + rest;
    IndexAfterFree(a, sep, rest);
    assert s[..|a|] == a;
    assert s[|a| + 1..] == rest;
    assert s[..|a| + 1] == a + [sep];
  }

  /** The first part ends at the first separator; the other parts are
      the split of what follows it. */
  lemma SplitUnfold(s: string, sep: char)
    ensures Split(s, sep)[0] == s[..Index(s, sep)]
    ensures Index(s, sep) == |s| ==> Split(s, sep) == [s]
    ensures Index(s, sep) < |s| ==> Split(s, sep)[1..] == Split(s[Index(s, sep) + 1..], sep)
  {
  }

  /** A string without the separator is not split at all. */
  lemma SplitFree(s: string, sep: char)
    requires sep !in s
    ensures Split(s, sep) == [s]
    ensures SplitAfter(s, sep) == [s]
  {
  }

  /** The first separator of `a + [sep] + rest` sits right after `a`
      when `a` has none. */
  lemma IndexAfterFree(a: string, sep: char, rest: string)
    requires sep !in a
    ensures Index(a + [sep] + rest, sep) == |a|
  {
    var s := a + [sep] + rest;
    assert s[|a|] == sep;
    assert forall j :: 0 <= j < |a| ==> s[j] == a[j];
  }

  /** No part produced by `Split` contains the separator. */
  lemma {:induction false} SplitPartsFree(s: string, sep: char)
    ensures forall k :: 0 <= k < |Split(s, sep)| ==> sep !in Split(s, sep)[k]
    decreases |s|
  {
    var i := Index(s, sep);
    if i < |s| {
      SplitPartsFree(s[i + 1..], sep);
      assert sep !in s[..i];
    }
  }

  /** There are as many parts as separators plus one. */
  lemma {:induction false} SplitCount(s: string, sep: char)
    ensures |Split(s, sep)| == multiset(s)[sep] + 1
    decreases |s|
  {
    var i := Index(s, sep);
    SplitUnfold(s, sep);
    if i < |s| {
      var rest := s[i + 1..];
      SplitCount(rest, sep);
      assert s == s[..i] + [sep] + rest;
      assert multiset(s) == multiset(s[..i]) + multiset([sep]) + multiset(rest);
      assert sep !in s[..i];
      assert multiset(s[..i])[sep] == 0;
    } else {
      assert sep !in s;
      assert multiset(s)[sep] == 0;
    }
  }

  /** Joining the parts of a split gives back the original string. */
  lemma {:induction false} JoinSplit(s: string, sep: char)
    ensures Join(Split(s, sep), sep) == s
    decreases |s|
  {
    var i := Index(s, sep);
    var parts := Split(s, sep);
    SplitUnfold(s, sep);
    if i < |s| {
      var rest := s[i + 1..];
      JoinSplit(rest, sep);
      assert parts[1..] == Split(rest, sep);
      assert Join(parts, sep) == s[..i] + [sep] + rest;
      assert s == s[..i] + [sep] + rest;
    } else {
      assert parts == [s];
    }
  }

  /** Splitting a join of separator-free parts gives back the parts. */
  lemma {:induction false} SplitJoin(parts: seq<string>, sep: char)
    requires |parts| >= 1
    requires forall k :: 0 <= k < |parts| ==> sep !in parts[k]
    ensures Split(Join(parts, sep), sep) == parts
    decreases |parts|
  {
    if |parts| == 1 {
      SplitFree(parts[0], sep);
    } else {
      SplitJoin(parts[1..], sep);
      SplitAtFirst(parts[0], sep, Join(parts[1..], sep));
      assert parts == [parts[0]] + parts[1..];
    }
  }

  /** `SplitAfter` cuts at the same places as `Split` and only keeps the
      separators: every part but the last ends with one. */
  lemma {:induction false} SplitAfterKeepsSeparators(s: string, sep: char)
    ensures |SplitAfter(s, sep)| == |Split(s, sep)|
    ensures forall k :: 0 <= k < |Split(s, sep)| - 1 ==> SplitAfter(s, sep)[k] == Split(s, sep)[k] + [sep]
    ensures SplitAfter(s, sep)[|Split(s, sep)| - 1] == Split(s, sep)[|Split(s, sep)| - 1]
    decreases |s|
  {
    var i := Index(s, sep);
    if i < |s| {
      SplitAfterKeepsSeparators(s[i + 1..], sep);
      assert s[..i + 1] == s[..i] + [sep];
    }
  }
}
