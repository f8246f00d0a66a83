/** The string operations of the JavaScript runtime that the gateway relies on. */
module Strings {
  import opened Wrappers

  /** `Array.prototype.join(sep)`. */
  function Join(parts: seq<string>, sep: string): string
  {
    if |parts| == 0 then ""
    else if |parts| == 1 then parts[0]
    else parts[0] + sep + Join(parts[1..], sep)
  }

  /** The index of the first occurrence of `c` in `s`, if any (`String.prototype.indexOf`). */
  function IndexOf(s: string, c: char): (r: Option<nat>)
    ensures r.None? <==> c !in s
    ensures r.Some? ==> r.value < |s| && s[r.value] == c && c !in s[..r.value]
  {
    if |s| == 0 then None
    else if s[0] == c then Some(0)
    else match IndexOf(s[1..], c)
      case None => None
      case Some(i) => assert s[1..][..i] == s[1..i + 1]; Some(i + 1)
  }

  /** `String.prototype.split(c)` for a one-character separator. */
  function Split(s: string, c: char): (r: seq<string>)
    decreases |s|
  {
    match IndexOf(s, c)
    case None => [s]
    case Some(i) => [s[..i]] + Split(s[i + 1..], c)
  }

  /** `String.prototype.startsWith(prefix)`. */
  predicate StartsWith(s: string, prefix: string)
  {
    |prefix| <= |s| && s[..|prefix|] == prefix
  }

  /** `s.replace(/-/g, "")`. */
  function RemoveDashes(s: string): (r: string)
    ensures '-' !in r
    ensures '-' !in s ==> r == s
    ensures multiset(r) == multiset(s)['-' := 0]
  {
    if |s| == 0 then ""
    else if s[0] == '-' then
      assert s == [s[0]] + s[1..];
      RemoveDashes(s[1..])
    else
      assert s == [s[0]] + s[1..];
      [s[0]] + RemoveDashes(s[1..])
  }

  /**
   * Removing dashes works piece by piece, so with the clauses above it keeps every other character
   * in its order.
   */
  lemma {:induction false} RemoveDashesAppend(a: string, b: string)
    ensures RemoveDashes(a + b) == RemoveDashes(a) + RemoveDashes(b)
  {
    if |a| > 0 {
      assert (a + b)[0] == a[0] && (a + b)[1..] == a[1..] + b;
      RemoveDashesAppend(a[1..], b);
    } else {
      assert a + b == b;
    }
  }

  /** Sequence concatenation is associative (stated for the solver, which needs it named). */
  lemma ConcatAssoc<T>(x: seq<T>, y: seq<T>, z: seq<T>)
    ensures x + y + z == x + (y + z)
  {
  }

  /** Appending to the end of a joined list adds exactly one separator. */
  lemma {:induction false} JoinSnoc(parts: seq<string>, x: string, sep: string)
    ensures Join(parts + [x], sep) == if parts == [] then x else Join(parts, sep) + sep + x
  {
    if |parts| > 1 {
      assert (parts + [x])[1..] == parts[1..] + [x];
      JoinSnoc(parts[1..], x, sep);
    } else if |parts| == 1 {
      assert (parts + [x])[1..] == [x];
    }
  }

  /** The first occurrence of `c` in `a + [c] + b` is just after `a` when `a` does not hold `c`. */
  lemma IndexOfAfter(a: string, c: char, b: string)
    requires c !in a
    ensures IndexOf(a + [c] + b, c) == Some(|a|)
  {
    var s := a + [c] + b;
    assert s[|a|] == c;
    assert s[..|a|] == a;
  }

  /** Splitting `a + [c] + b` yields `a` first when `a` does not hold `c`. */
  lemma SplitAfter(a: string, c: char, b: string)
    requires c !in a
    ensures Split(a + [c] + b, c) == [a] + Split(b, c)
  {
    var s := a + [c] + b;
    IndexOfAfter(a, c, b);
    assert s[..|a|] == a;
    assert s[|a| + 1..] == b;
  }

  /**
   * Splitting a joined list on the separator gives the list back, provided no element holds the
   * separator (so the join lost no information).
   */
  lemma {:induction false} SplitJoin(parts: seq<string>, c: char)
    requires |parts| >= 1
    requires forall i :: 0 <= i < |parts| ==> c !in parts[i]
    ensures Split(Join(parts, [c]), c) == parts
  {
    if |parts| == 1 {
      assert IndexOf(parts[0], c).None?;
    } else {
      var first := parts[0];
      var tail := parts[1..];
      var rest := Join(tail, [c]);
      assert Join(parts, [c]) == first + [c] + rest;
      SplitAfter(first, c, rest);
      forall i | 0 <= i < |tail|
        ensures c !in tail[i]
      {
        assert tail[i] == parts[i + 1];
      }
      SplitJoin(tail, c);
      assert parts == [first] + tail;
    }
  }
}
