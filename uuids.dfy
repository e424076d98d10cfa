/** Python's `uuid.UUID(hex)` on a text, which Django's `UUIDField` applies
    to every value a query compares with a UUID column. A value is kept as
    its 32 lower-case hex digits. */
module Uuids {
  import opened Text

  /** `s.replace(pat, "")`: the occurrences of `pat`, taken left to right
      without overlap, removed. */
  function RemoveAll(s: string, pat: string): (r: string)
    requires |pat| > 0
    ensures |r| <= |s|
    decreases |s|
  {
    if |s| < |pat| then s
    else if s[..|pat|] == pat then RemoveAll(s[|pat|..], pat)
    else [s[0]] + RemoveAll(s[1..], pat)
  }

  /** `s.replace(c, "")` for a single character. */
  function RemoveChar(s: string, c: char): (r: string)
    ensures |r| <= |s|
    ensures forall x :: x in r ==> x in s && x != c
  {
    if |s| == 0 then []
    else (if s[0] == c then [] else [s[0]]) + RemoveChar(s[1..], c)
  }

  predicate IsBrace(c: char)
  {
    c == '{' || c == '}'
  }

  function DropLeadingBraces(s: string): (r: string)
    ensures |r| <= |s|
  {
    if |s| > 0 && IsBrace(s[0]) then DropLeadingBraces(s[1..]) else s
  }

  function DropTrailingBraces(s: string): (r: string)
    ensures |r| <= |s|
  {
    if |s| > 0 && IsBrace(s[|s| - 1]) then DropTrailingBraces(s[..|s| - 1]) else s
  }

  /** `s.strip("{}")`. */
  function StripBraces(s: string): (r: string)
    ensures |r| <= |s|
  {
    DropTrailingBraces(DropLeadingBraces(s))
  }

  predicate HexDigit(c: char)
  {
    '0' <= c <= '9' || 'a' <= c <= 'f' || 'A' <= c <= 'F'
  }

  predicate LowerHex(s: string)
  {
    forall x :: x in s ==> '0' <= x <= '9' || 'a' <= x <= 'f'
  }

  /** Lower-case hex digits and dashes only. */
  predicate HexOrDash(s: string)
  {
    forall x :: x in s ==> x == '-' || '0' <= x <= '9' || 'a' <= x <= 'f'
  }

  /** The digits `uuid.UUID` reads: the text with `urn:` and `uuid:`
      removed, braces stripped from both ends and every dash removed. */
  function HexText(s: string): (r: string)
    ensures |r| <= |s|
  {
    RemoveChar(StripBraces(RemoveAll(RemoveAll(s, "urn:"), "uuid:")), '-')
  }

  /** The UUID a text names, or `None` when `uuid.UUID` raises (the digits
      are not 32 hex digits). */
  function UuidValue(s: string): (r: Option<string>)
    ensures r.Some? ==> |r.value| == 32 && LowerHex(r.value)
  {
    var hex := HexText(s);
    if |hex| == 32 && forall i :: 0 <= i < 32 ==> HexDigit(hex[i]) then Some(Lower(hex)) else None
  }

  /** A lookup text matches a stored id, kept in the canonical
      `8-4-4-4-12` lower-case form `str(uuid)` gives, when it parses to the
      id's digits (`CanonicalForms`: the value the stored id names). */
  predicate NamesUuid(text: string, id: string)
  {
    UuidValue(text) == Some(RemoveChar(id, '-'))
  }

  // ---------------------------------------------------------------------
  // Properties

  /** A text with fewer than 32 characters names no UUID: `"abc"` raises. */
  lemma ShortRejected(s: string)
    requires |s| < 32
    ensures UuidValue(s).None?
    ensures UuidValue("abc").None?
  {
    assert |HexText("abc")| <= 3;
  }

  /** The canonical `8-4-4-4-12` form, the same form in braces and the
      bare 32 digits all name the UUID of those digits. */
  lemma CanonicalForms(a: string, b: string, c: string, d: string, e: string)
    requires |a| == 8 && |b| == 4 && |c| == 4 && |d| == 4 && |e| == 12
    requires LowerHex(a) && LowerHex(b) && LowerHex(c) && LowerHex(d) && LowerHex(e)
    ensures UuidValue(a + "-" + b + "-" + c + "-" + d + "-" + e) == Some(a + b + c + d + e)
    ensures UuidValue("{" + a + "-" + b + "-" + c + "-" + d + "-" + e + "}") == Some(a + b + c + d + e)
    ensures UuidValue(a + b + c + d + e) == Some(a + b + c + d + e)
  {
    CanonicalRead(a, b, c, d, e);
    BracedCanonicalRead(a, b, c, d, e);
    BareDigitsRead(a + b + c + d + e);
  }

  predicate CanonicalParts(a: string, b: string, c: string, d: string, e: string)
  {
    |a| == 8 && |b| == 4 && |c| == 4 && |d| == 4 && |e| == 12 &&
    LowerHex(a) && LowerHex(b) && LowerHex(c) && LowerHex(d) && LowerHex(e)
  }

  lemma CanonicalRead(a: string, b: string, c: string, d: string, e: string)
    requires CanonicalParts(a, b, c, d, e)
    ensures UuidValue(a + "-" + b + "-" + c + "-" + d + "-" + e) == Some(a + b + c + d + e)
  {
    DashesRemoved(a, b, c, d, e);
    DashedRead(a + "-" + b + "-" + c + "-" + d + "-" + e);
  }

  lemma BracedCanonicalRead(a: string, b: string, c: string, d: string, e: string)
    requires CanonicalParts(a, b, c, d, e)
    ensures UuidValue("{" + a + "-" + b + "-" + c + "-" + d + "-" + e + "}") == Some(a + b + c + d + e)
  {
    var canonical := a + "-" + b + "-" + c + "-" + d + "-" + e;
    CanonicalRead(a, b, c, d, e);
    BracedRead(canonical);
    assert "{" + canonical + "}" == "{" + a + "-" + b + "-" + c + "-" + d + "-" + e + "}";
  }

  lemma BareDigitsRead(digits: string)
    requires |digits| == 32 && LowerHex(digits)
    ensures UuidValue(digits) == Some(digits)
  {
    HexOnlyRemoveChar(digits);
    DashedRead(digits);
  }

  lemma DashesRemoved(a: string, b: string, c: string, d: string, e: string)
    requires LowerHex(a) && LowerHex(b) && LowerHex(c) && LowerHex(d) && LowerHex(e)
    ensures RemoveChar(a + "-" + b + "-" + c + "-" + d + "-" + e, '-') == a + b + c + d + e
  {
    HexOnlyRemoveChar(a);
    DashStep(a, b, a);
    DashStep(a + "-" + b, c, a + b);
    DashStep(a + "-" + b + "-" + c, d, a + b + c);
    DashStep(a + "-" + b + "-" + c + "-" + d, e, a + b + c + d);
  }

  lemma DashStep(x: string, y: string, digits: string)
    requires RemoveChar(x, '-') == digits && LowerHex(y)
    ensures RemoveChar(x + "-" + y, '-') == digits + y
  {
    assert x + "-" + y == x + ("-" + y);
    DashDropped(x, y);
    HexOnlyRemoveChar(y);
  }

  /** Hex digits and dashes are read as the digits: nothing is removed but
      the dashes. */
  lemma DashedRead(s: string)
    requires |s| > 0 && HexOrDash(s) && |RemoveChar(s, '-')| == 32
    ensures UuidValue(s) == Some(RemoveChar(s, '-'))
  {
    Unwrapped(s);
    var hex := RemoveChar(s, '-');
    assert LowerHex(hex);
    HexDigitsOnly(hex);
    LowerHexUnchanged(hex);
  }

  /** Hex digits and dashes hold no `urn:`, no `uuid:` and no brace. */
  lemma Unwrapped(s: string)
    requires |s| > 0 && HexOrDash(s)
    ensures StripBraces(RemoveAll(RemoveAll(s, "urn:"), "uuid:")) == s
  {
    assert s[0] in s && s[|s| - 1] in s;
    assert ':' !in s;
    NoColonKept(s, "urn:");
    NoColonKept(s, "uuid:");
  }

  lemma HexDigitsOnly(hex: string)
    requires LowerHex(hex)
    ensures forall i :: 0 <= i < |hex| ==> HexDigit(hex[i])
  {
    assert forall i :: 0 <= i < |hex| ==> hex[i] in hex;
  }

  /** Braces around the text are stripped before reading. */
  lemma BracedRead(s: string)
    requires |s| > 0 && HexOrDash(s)
    ensures UuidValue("{" + s + "}") == UuidValue(s)
  {
    var braced := "{" + s + "}";
    assert s[0] in s && s[|s| - 1] in s;
    assert ':' !in s && ':' !in braced;
    NoColonKept(braced, "urn:");
    NoColonKept(braced, "uuid:");
    NoColonKept(s, "urn:");
    NoColonKept(s, "uuid:");
    assert braced[1..] == s + "}";
    assert DropLeadingBraces(braced) == s + "}";
    assert (s + "}")[..|s + "}"| - 1] == s;
    assert DropTrailingBraces(s + "}") == s;
    assert StripBraces(s) == s;
  }

  lemma {:induction false} NoColonKept(s: string, pat: string)
    requires |pat| > 0 && pat[|pat| - 1] == ':' && ':' !in s
    ensures RemoveAll(s, pat) == s
    decreases |s|
  {
    if |s| >= |pat| {
      assert s[..|pat|][|pat| - 1] != ':';
      NoColonKept(s[1..], pat);
      assert [s[0]] + s[1..] == s;
    }
  }

  lemma {:induction false} RemoveCharConcat(x: string, y: string, c: char)
    ensures RemoveChar(x + y, c) == RemoveChar(x, c) + RemoveChar(y, c)
    decreases |x|
  {
    if |x| == 0 {
      assert x + y == y;
    } else {
      assert (x + y)[1..] == x[1..] + y;
      RemoveCharConcat(x[1..], y, c);
    }
  }

  lemma DashDropped(x: string, y: string)
    ensures RemoveChar(x + ("-" + y), '-') == RemoveChar(x, '-') + RemoveChar(y, '-')
  {
    RemoveCharConcat(x, "-" + y, '-');
    assert ("-" + y)[1..] == y;
  }

  lemma {:induction false} HexOnlyRemoveChar(s: string)
    requires LowerHex(s)
    ensures RemoveChar(s, '-') == s
    decreases |s|
  {
    if |s| > 0 {
      assert s[0] in s;
      assert forall x :: x in s[1..] ==> x in s;
      HexOnlyRemoveChar(s[1..]);
      assert [s[0]] + s[1..] == s;
    }
  }

  lemma LowerHexUnchanged(s: string)
    requires LowerHex(s)
    ensures Lower(s) == s
  {
    forall i | 0 <= i < |s|
      ensures Lower(s)[i] == s[i]
    {
      assert s[i] in s;
    }
  }
}
