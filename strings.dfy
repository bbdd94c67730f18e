/** The pieces of Go's `strings` package that the core relies on, over
    `seq<char>`: `strings.Index`, `strings.LastIndex`, `strings.Cut` and
    `strings.Split` for a one-character separator. */
module Strings {

  /** Index of the first occurrence of `c` in `s`, or -1 (`strings.Index`). */
  function IndexOf(s: string, c: char): (i: int)
    ensures -1 <= i < |s|
    ensures i == -1 <==> c !in s
    ensures 0 <= i ==> s[i] == c && c !in s[..i]
  {
    if s == [] then -1
    else if s[0] == c then 0
    else
      var j := IndexOf(s[1..], c);
      if j < 0 then -1
      else
        assert s[..j + 1] == [s[0]] + s[1..][..j];
        j + 1
  }

  /** Index of the last occurrence of `c` in `s`, or -1 (`strings.LastIndex`). */
  function LastIndexOf(s: string, c: char): (i: int)
    ensures -1 <= i < |s|
    ensures i == -1 <==> c !in s
    ensures 0 <= i ==> s[i] == c
    ensures forall k :: i < k < |s| ==> s[k] != c
  {
    if s == [] then -1
    else if s[|s| - 1] == c then |s| - 1
    else LastIndexOf(s[..|s| - 1], c)
  }

  /** `strings.Cut(s, string(sep))`: the text before and after the first
      occurrence of `sep`, and whether there was one. */
  datatype CutResult = CutResult(before: string, after: string, found: bool)

  function Cut(s: string, sep: char): (r: CutResult)
    ensures r.found <==> sep in s
    ensures r.found ==> s == r.before + [sep] + r.after && sep !in r.before
    ensures !r.found ==> r.before == s && r.after == ""
  {
    var i := IndexOf(s, sep);
    if i < 0 then CutResult(s, "", false)
    else
      assert s == s[..i] + [sep] + s[i + 1..];
      CutResult(s[..i], s[i + 1..], true)
  }

  /** The text before and after the LAST occurrence of `sep`, and whether
      there was one (`strings.LastIndex` followed by slicing). */
  function CutLast(s: string, sep: char): (r: CutResult)
    ensures r.found <==> sep in s
    ensures r.found ==> s == r.before + [sep] + r.after && sep !in r.after
    ensures !r.found ==> r.before == s && r.after == ""
  {
    var i := LastIndexOf(s, sep);
    if i < 0 then CutResult(s, "", false)
    else
      assert s == s[..i] + [sep] + s[i + 1..];
      CutResult(s[..i], s[i + 1..], true)
  }

  /** Cutting at the separator that follows a separator-free prefix gives
      back that prefix and the rest. */
  lemma CutConcat(a: string, sep: char, b: string)
    requires sep !in a
    ensures Cut(a + [sep] + b, sep) == CutResult(a, b, true)
  {
    IndexOfConcat(a, sep, b);
  }

  /** Appending text after a separator does not move the first cut; with no
      separator on either side there is nothing to cut. */
  lemma CutAppend(a: string, b: string, sep: char)
    ensures sep in a ==> Cut(a + b, sep).found && Cut(a + b, sep).before == Cut(a, sep).before
    ensures sep !in a && sep !in b ==> !Cut(a + b, sep).found
  {
    if sep in a {
      var c := Cut(a, sep);
      CutConcat(c.before, sep, c.after + b);
      assert a + b == c.before + [sep] + (c.after + b);
    }
  }

  /** Cutting at the separator that precedes a separator-free suffix gives
      back the text before it and that suffix. */
  lemma CutLastConcat(a: string, sep: char, b: string)
    requires sep !in b
    ensures CutLast(a + [sep] + b, sep) == CutResult(a, b, true)
  {
    LastIndexOfConcat(a, sep, b);
  }

  /** The same cut, with the separator written as the head of the suffix. */
  lemma CutLastPrefixed(a: string, sep: char, b: string)
    requires sep !in b
    ensures CutLast(a + ([sep] + b), sep) == CutResult(a, b, true)
  {
    assert a + ([sep] + b) == a + [sep] + b;
    CutLastConcat(a, sep, b);
  }

  /** Concatenation regroups freely; stated once so that larger proofs can
      cite it instead of re-deriving it. */
  lemma ConcatAssoc(a: string, b: string, c: string)
    ensures a + b + c == a + (b + c)
  {
  }

  /** The first occurrence of `c` is found where the prefix before it ends. */
  lemma IndexOfConcat(a: string, c: char, b: string)
    requires c !in a
    ensures IndexOf(a + [c] + b, c) == |a|
    ensures (a + [c] + b)[..|a|] == a && (a + [c] + b)[|a| + 1..] == b
  {
    var s := a + [c] + b;
    assert s[|a|] == c;
    assert s[..|a|] == a;
  }

  /** The last occurrence of `c` is found where the suffix after it starts. */
  lemma {:induction false} LastIndexOfConcat(a: string, c: char, b: string)
    requires c !in b
    ensures LastIndexOf(a + [c] + b, c) == |a|
    ensures (a + [c] + b)[..|a|] == a && (a + [c] + b)[|a| + 1..] == b
    decreases |b|
  {
    var s := a + [c] + b;
    if b != [] {
      var b' := b[..|b| - 1];
      assert s[..|s| - 1] == a + [c] + b';
      assert s[|s| - 1] == b[|b| - 1];
      LastIndexOfConcat(a, c, b');
    }
    assert s[..|a|] == a;
    assert s[|a| + 1..] == b;
  }

  /** `strings.Split(s, string(sep))`: the pieces of `s` between occurrences
      of `sep`; there is always at least one. */
  function Split(s: string, sep: char): (parts: seq<string>)
    ensures |parts| >= 1
    ensures |parts| > 1 <==> sep in s
    ensures parts[0] == if sep in s then s[..IndexOf(s, sep)] else s
    decreases |s|
  {
    var i := IndexOf(s, sep);
    if i < 0 then [s] else [s[..i]] + Split(s[i + 1..], sep)
  }

  /** `strings.Join(parts, string(sep))`, the inverse of `Split`. */
  function Join(parts: seq<string>, sep: char): (s: string)
    requires |parts| >= 1
    decreases |parts|
  {
    if |parts| == 1 then parts[0] else parts[0] + [sep] + Join(parts[1..], sep)
  }

  /** Splitting loses nothing: joining the pieces back gives the input. */
  lemma {:induction false} JoinSplit(s: string, sep: char)
    ensures Join(Split(s, sep), sep) == s
    decreases |s|
  {
    var i := IndexOf(s, sep);
    if i >= 0 {
      JoinSplit(s[i + 1..], sep);
      assert s == s[..i] + [sep] + s[i + 1..];
    }
  }

  /** A separator-free head and the separator split off as the first piece. */
  lemma SplitConcat(a: string, sep: char, b: string)
    requires sep !in a
    ensures Split(a + [sep] + b, sep) == [a] + Split(b, sep)
  {
    IndexOfConcat(a, sep, b);
  }

  /** Splitting the separator-free pieces joined by the separator gives them
      back: `Split` and `Join` are mutually inverse on such lists. */
  lemma {:induction false} SplitJoin(parts: seq<string>, sep: char)
    requires |parts| >= 1
    requires forall p :: p in parts ==> sep !in p
    ensures Split(Join(parts, sep), sep) == parts
    decreases |parts|
  {
    if |parts| > 1 {
      var tail := parts[1..];
      var rest := Join(tail, sep);
      assert Join(parts, sep) == parts[0] + [sep] + rest;
      SplitConcat(parts[0], sep, rest);
      SplitJoin(tail, sep);
      assert [parts[0]] + tail == parts;
    }
  }
}
