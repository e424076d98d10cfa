/** String and byte helpers shared by every module: the handful of Python
    string operations the services use (`startswith`, `in`, `lower`,
    `split`), written out on `seq<char>`. */
module Text {

  /** A byte of a request or response body. */
  newtype byte = x: int | 0 <= x < 256

  datatype Option<T> = None | Some(value: T)

  predicate StartsWith(s: string, prefix: string)
  {
    |prefix| <= |s| && s[..|prefix|] == prefix
  }

  /** Python's `sub in s` on strings. */
  predicate Contains(s: string, sub: string)
    decreases |s|
  {
    StartsWith(s, sub) || (|s| > 0 && Contains(s[1..], sub))
  }

  /** Python's `str.lower`, restricted to ASCII letters. */
  function LowerChar(c: char): (r: char)
    ensures 'A' <= c <= 'Z' ==> r as int == c as int + 32
    ensures !('A' <= c <= 'Z') ==> r == c
  {
    if 'A' <= c <= 'Z' then (c as int + 32) as char else c
  }

  function Lower(s: string): (r: string)
    ensures |r| == |s|
    ensures forall i :: 0 <= i < |s| ==> r[i] == LowerChar(s[i])
  {
    seq(|s|, i requires 0 <= i < |s| => LowerChar(s[i]))
  }

  /** The index of the first occurrence of `c` in `s`, if any. */
  function IndexOf(s: string, c: char): (r: Option<nat>)
    ensures r.None? <==> c !in s
    ensures r.Some? ==> r.value < |s| && s[r.value] == c && forall k :: 0 <= k < r.value ==> s[k] != c
  {
    if |s| == 0 then None
    else if s[0] == c then Some(0)
    else match IndexOf(s[1..], c)
      case None => None
      case Some(i) => assert s[1..][..i] == s[1..i + 1]; Some(i + 1)
  }

  /** Python's `s.split(c)` for a one-character separator: every occurrence
      of `c` separates two parts, empty parts included. */
  function Split(s: string, c: char): (parts: seq<string>)
    ensures |parts| >= 1
    decreases |s|
  {
    match IndexOf(s, c)
    case None => [s]
    case Some(i) => [s[..i]] + Split(s[i + 1..], c)
  }

  /** The number of occurrences of `c` in `s`. */
  function Count(s: string, c: char): nat
  {
    if |s| == 0 then 0 else (if s[0] == c then 1 else 0) + Count(s[1..], c)
  }

  /** Python's `s.split(c, 1)`: at most one cut, at the first occurrence. */
  function SplitOnce(s: string, c: char): (parts: seq<string>)
    ensures c !in s ==> parts == [s]
    ensures c in s ==> |parts| == 2 && c !in parts[0] && parts[0] + [c] + parts[1] == s
  {
    match IndexOf(s, c)
    case None => [s]
    case Some(i) => assert s[..i] + [c] + s[i + 1..] == s; [s[..i], s[i + 1..]]
  }

  function Last<T>(s: seq<T>): T
    requires |s| > 0
  {
    s[|s| - 1]
  }

  /** Splitting cuts at every occurrence of the separator: there is one part
      more than there are separators. */
  lemma {:induction false} SplitCount(s: string, c: char)
    ensures |Split(s, c)| == Count(s, c) + 1
    decreases |s|
  {
    match IndexOf(s, c)
    case None =>
      CountAbsent(s, c);
    case Some(i) =>
      SplitCount(s[i + 1..], c);
      CountAbsent(s[..i], c);
      CountConcat(s[..i], s[i..], c);
      assert s[..i] + s[i..] == s;
      assert s[i..][1..] == s[i + 1..];
  }

  lemma {:induction false} CountAbsent(s: string, c: char)
    requires c !in s
    ensures Count(s, c) == 0
    decreases |s|
  {
    if |s| > 0 {
      assert c !in s[1..] by { assert forall k :: 0 <= k < |s[1..]| ==> s[1..][k] == s[k + 1]; }
      CountAbsent(s[1..], c);
    }
  }

  lemma {:induction false} CountConcat(a: string, b: string, c: char)
    ensures Count(a + b, c) == Count(a, c) + Count(b, c)
    decreases |a|
  {
    if |a| > 0 {
      assert (a + b)[1..] == a[1..] + b;
      CountConcat(a[1..], b, c);
    } else {
      assert a + b == b;
    }
  }

  /** No part produced by `Split` contains the separator. */
  lemma {:induction false} SplitPartsFree(s: string, c: char)
    ensures forall k :: 0 <= k < |Split(s, c)| ==> c !in Split(s, c)[k]
    decreases |s|
  {
    match IndexOf(s, c)
    case None =>
    case Some(i) =>
      SplitPartsFree(s[i + 1..], c);
  }

  /** When there is a separator, `s` is everything before the last part, a
      separator, and the last part. */
  lemma {:induction false} SplitLast(s: string, c: char)
    requires c in s
    ensures var parts := Split(s, c);
      exists i :: 0 <= i < |s| && s[i] == c && Last(parts) == s[i + 1..]
    decreases |s|
  {
    var i := IndexOf(s, c).value;
    var rest := s[i + 1..];
    SplitTail(s, c);
    if c in rest {
      SplitLast(rest, c);
      var j :| 0 <= j < |rest| && rest[j] == c && Last(Split(rest, c)) == rest[j + 1..];
      assert s[i + 1 + j] == c;
      assert rest[j + 1..] == s[i + 1 + j + 1..];
    } else {
      assert Split(rest, c) == [rest];
    }
  }

  /** Past the first separator, the last part is the last part of the rest. */
  lemma SplitTail(s: string, c: char)
    requires c in s
    ensures Last(Split(s, c)) == Last(Split(s[IndexOf(s, c).value + 1..], c))
  {
    var i := IndexOf(s, c).value;
    SplitUnfold(s, c, i);
    LastStep(Split(s, c), s[..i], Split(s[i + 1..], c));
  }

  lemma SplitUnfold(s: string, c: char, i: nat)
    requires IndexOf(s, c) == Some(i)
    ensures Split(s, c) == [s[..i]] + Split(s[i + 1..], c)
  {
  }

  lemma LastStep(parts: seq<string>, x: string, tail: seq<string>)
    requires parts == [x] + tail && |tail| > 0
    ensures Last(parts) == Last(tail)
  {
    assert parts[|parts| - 1] == tail[|tail| - 1];
  }

  /** The first part of `Split` is the text before the first separator, or
      all of `s` when there is none. */
  lemma SplitFirst(s: string, c: char)
    ensures c !in s ==> Split(s, c)[0] == s
    ensures c in s ==> Split(s, c)[0] == s[..IndexOf(s, c).value]
  {
  }

  /** Splitting into exactly two parts happens exactly when `s` holds one
      separator, and then the two parts rebuild `s` around it. */
  lemma TwoParts(s: string, c: char)
    ensures |Split(s, c)| == 2 <==> Count(s, c) == 1
    ensures |Split(s, c)| == 2 ==>
      var parts := Split(s, c);
      parts[0] + [c] + parts[1] == s && c !in parts[0] && c !in parts[1]
  {
    SplitCount(s, c);
    SplitPartsFree(s, c);
    if |Split(s, c)| == 2 {
      var i := IndexOf(s, c).value;
      assert Split(s[i + 1..], c) == [s[i + 1..]];
      assert s[..i] + [c] + s[i + 1..] == s;
    }
  }

  /** The first occurrence is where it is. */
  lemma {:induction false} IndexOfAt(s: string, c: char, i: nat)
    requires i < |s| && s[i] == c && c !in s[..i]
    ensures IndexOf(s, c) == Some(i)
    decreases i
  {
    if i > 0 {
      assert s[0] == s[..i][0];
      assert s[1..][..i - 1] == s[1..i];
      assert s[1..][i - 1] == s[i];
      IndexOfAt(s[1..], c, i - 1);
    }
  }

  /** Two separator-free parts joined by one separator split back into
      those two parts. */
  lemma SplitAround(a: string, b: string, c: char)
    requires c !in a && c !in b
    ensures Split(a + [c] + b, c) == [a, b]
  {
    var s := a + [c] + b;
    assert s[..|a|] == a && s[|a|] == c && s[|a| + 1..] == b;
    IndexOfAt(s, c, |a|);
  }

  /** The last part of a split is whatever follows the last separator. */
  lemma {:induction false} SplitLastPart(a: string, e: string, c: char)
    requires c !in e
    ensures Last(Split(a + [c] + e, c)) == e
    decreases |a|
  {
    var s := a + [c] + e;
    if c !in a {
      SplitAround(a, e, c);
    } else {
      var i := IndexOf(a, c).value;
      assert s[..i] == a[..i] && s[i] == c;
      IndexOfAt(s, c, i);
      var rest := a[i + 1..];
      assert s[i + 1..] == rest + [c] + e;
      SplitTail(s, c);
      SplitLastPart(rest, e, c);
    }
  }
}
