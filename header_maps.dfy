/** Header collections as the gateway handles them.

    An inbound or upstream header set is an ordered list of (name, value)
    pairs in which a name may repeat and lookups ignore case (aiohttp's
    CIMultiDict). A Python `dict` built from it is the same kind of list
    with pairwise distinct names, looked up by the exact name. */
module HeaderMaps {
  import opened Text

  type Header = (string, string)
  type Headers = seq<Header>

  function Names(h: Headers): (r: seq<string>)
    ensures |r| == |h|
    ensures forall i :: 0 <= i < |h| ==> r[i] == h[i].0
  {
    seq(|h|, i requires 0 <= i < |h| => h[i].0)
  }

  /** A Python dict: no name occurs twice. */
  ghost predicate IsDict(d: Headers)
  {
    forall i, j :: 0 <= i < j < |d| ==> d[i].0 != d[j].0
  }

  /** `d.get(k)` with the exact name `k`; on a list with repeated names it
      finds the value of the LAST pair named `k`, which is the value a dict
      comprehension over that list keeps. */
  function Get(d: Headers, k: string): (r: Option<string>)
    ensures r.Some? <==> k in Names(d)
  {
    if |d| == 0 then None
    else if Last(d).0 == k then Some(Last(d).1)
    else
      assert Names(d) == Names(d[..|d| - 1]) + [Last(d).0];
      Get(d[..|d| - 1], k)
  }

  /** The position of the first pair named exactly `k`. */
  function KeyIndex(d: Headers, k: string): (r: Option<nat>)
    ensures r.None? <==> k !in Names(d)
    ensures r.Some? ==> r.value < |d| && d[r.value].0 == k
  {
    if |d| == 0 then None
    else if d[0].0 == k then Some(0)
    else
      assert Names(d) == [d[0].0] + Names(d[1..]);
      match KeyIndex(d[1..], k)
      case None => None
      case Some(i) => Some(i + 1)
  }

  /** `d[k] = v` on a dict: overwrite the value in place when the name is
      present, append the pair when it is not. */
  function Set(d: Headers, k: string, v: string): (r: Headers)
    requires IsDict(d)
    ensures IsDict(r)
    ensures Get(r, k) == Some(v)
    ensures forall k' :: k' != k ==> Get(r, k') == Get(d, k')
    ensures k !in Names(d) ==> r == d + [(k, v)]
    ensures k in Names(d) ==> |r| == |d| && Names(r) == Names(d)
  {
    match KeyIndex(d, k)
    case None =>
      var r := d + [(k, v)];
      assert r[..|r| - 1] == d;
      assert Names(r) == Names(d) + [k];
      r
    case Some(i) =>
      var r := d[i := (k, v)];
      assert Names(r) == Names(d);
      ReplaceGet(d, i, v);
      r
  }

  lemma {:induction false} ReplaceGet(d: Headers, i: nat, v: string)
    requires IsDict(d) && i < |d|
    ensures Get(d[i := (d[i].0, v)], d[i].0) == Some(v)
    ensures forall k' :: k' != d[i].0 ==> Get(d[i := (d[i].0, v)], k') == Get(d, k')
    decreases |d|
  {
    var r := d[i := (d[i].0, v)];
    if i < |d| - 1 {
      ReplaceGet(d[..|d| - 1], i, v);
      assert r[..|r| - 1] == d[..|d| - 1][i := (d[i].0, v)];
      assert Last(r) == Last(d);
    }
  }

  /** The dict comprehension `{k: v for k, v in items}`: pairs are stored in
      order, a repeated name overwrites the earlier value and keeps the
      earlier position. */
  function FromItems(items: Headers): (d: Headers)
    ensures IsDict(d)
  {
    if |items| == 0 then []
    else Set(FromItems(items[..|items| - 1]), Last(items).0, Last(items).1)
  }

  /** The pairs whose lower-cased name is not in `names`, in their order. */
  function FilterOut(h: Headers, names: set<string>): (r: Headers)
    ensures forall x :: x in r <==> x in h && Lower(x.0) !in names
  {
    if |h| == 0 then []
    else
      assert h == h[..|h| - 1] + [Last(h)];
      FilterOut(h[..|h| - 1], names) + (if Lower(Last(h).0) in names then [] else [Last(h)])
  }

  /** Position `j` holds the first pair named `name`, ignoring case. */
  ghost predicate FirstNamed(h: Headers, name: string, j: int)
  {
    0 <= j < |h| && Lower(h[j].0) == Lower(name) &&
    forall i :: 0 <= i < j ==> Lower(h[i].0) != Lower(name)
  }

  /** aiohttp's case-insensitive lookup `h.get(name)`: the value of the first
      pair whose name equals `name` ignoring case. */
  function CIGet(h: Headers, name: string): (r: Option<string>)
    ensures r.None? <==> forall x :: x in h ==> Lower(x.0) != Lower(name)
    ensures r.Some? ==> exists j :: FirstNamed(h, name, j) && h[j].1 == r.value
  {
    if |h| == 0 then None
    else if Lower(h[0].0) == Lower(name) then Some(h[0].1)
    else
      assert forall x :: x in h ==> x == h[0] || x in h[1..];
      match CIGet(h[1..], name)
      case None => None
      case Some(v) =>
        ghost var j :| FirstNamed(h[1..], name, j) && h[1..][j].1 == v;
        assert FirstNamed(h, name, j + 1) by {
          forall i | 0 <= i < j + 1 ensures Lower(h[i].0) != Lower(name) {
            if i > 0 { assert h[i] == h[1..][i - 1]; }
          }
        }
        Some(v)
  }

  /** A dict comprehension keeps, for each name, the value of the last pair
      with that name, and no other names. */
  lemma {:induction false} FromItemsGet(items: Headers, k: string)
    ensures Get(FromItems(items), k) == Get(items, k)
    decreases |items|
  {
    if |items| > 0 {
      FromItemsGet(items[..|items| - 1], k);
    }
  }

  /** Filtering removes exactly the names in `names`, ignoring case, and keeps
      the last value of every other name. */
  lemma {:induction false} FilterOutGet(h: Headers, names: set<string>, k: string)
    ensures Get(FilterOut(h, names), k) == if Lower(k) in names then None else Get(h, k)
    decreases |h|
  {
    if |h| > 0 {
      FilterOutGet(h[..|h| - 1], names, k);
      var init := FilterOut(h[..|h| - 1], names);
      if Lower(Last(h).0) !in names {
        var r := init + [Last(h)];
        assert r[..|r| - 1] == init;
      } else {
        assert init + [] == init;
      }
    }
  }

  /** On a list that is already a dict, the comprehension changes nothing:
      order and values are kept. */
  lemma {:induction false} FromItemsOfDict(d: Headers)
    requires IsDict(d)
    ensures FromItems(d) == d
    decreases |d|
  {
    if |d| > 0 {
      var init := d[..|d| - 1];
      FromItemsOfDict(init);
      assert Last(d).0 !in Names(init) by {
        forall i | 0 <= i < |init| ensures init[i].0 != Last(d).0 {
          assert init[i] == d[i];
        }
      }
      assert init + [Last(d)] == d;
    }
  }

  /** `dict(m)` of a CIMultiDict `m`: it walks every key of `m` in order,
      duplicates included, and stores `m[key]`, the value of the FIRST pair
      whose name matches that key ignoring case. */
  function DictOf(m: Headers): (d: Headers)
    ensures IsDict(d)
  {
    DictOfPrefix(m, |m|)
  }

  /** `dict(m)` after its walk has stored the first `n` keys. */
  function DictOfPrefix(m: Headers, n: nat): (d: Headers)
    requires n <= |m|
    ensures IsDict(d)
  {
    if n == 0 then []
    else
      assert m[n - 1] in m;
      Set(DictOfPrefix(m, n - 1), m[n - 1].0, CIGet(m, m[n - 1].0).value)
  }

  lemma NamesPrefix(m: Headers, n: nat)
    requires 0 < n <= |m|
    ensures Names(m[..n]) == Names(m[..n - 1]) + [m[n - 1].0]
  {
  }

  lemma {:induction false} DictOfPrefixGet(m: Headers, n: nat, k: string)
    requires n <= |m|
    ensures Get(DictOfPrefix(m, n), k) == if k in Names(m[..n]) then CIGet(m, k) else None
    decreases n
  {
    if n > 0 {
      DictOfPrefixGet(m, n - 1, k);
      NamesPrefix(m, n);
      if k == m[n - 1].0 {
        assert m[n - 1] in m;
      }
    }
  }

  /** A name of `m` reads, in `dict(m)`, the first value sent for it in any
      letter case; a name `m` does not have is absent. */
  lemma DictOfGet(m: Headers, k: string)
    ensures Get(DictOf(m), k) == if k in Names(m) then CIGet(m, k) else None
  {
    DictOfPrefixGet(m, |m|, k);
    assert m[..|m|] == m;
  }
}
