/**
 * Python string operations used by the modelled code: substring search
 * (`in`), `startswith`/`endswith`, `join`, `split`, `replace`, `strip`,
 * ASCII case mapping, and the decimal text of integers (`str(int)`, `int(str)`).
 */
module Text {
  import opened Wrappers

  // ---------------------------------------------------------------------------
  // Substrings

  /** `needle` occurs in `hay` starting at index `k`. */
  predicate OccursAt(hay: string, needle: string, k: int)
  {
    0 <= k && k + |needle| <= |hay| && hay[k..k + |needle|] == needle
  }

  /** Python's `needle in hay` for strings (the empty string occurs everywhere). */
  predicate Contains(hay: string, needle: string)
  {
    exists k :: 0 <= k <= |hay| - |needle| && OccursAt(hay, needle, k)
  }

  lemma ContainsInfix(pre: string, mid: string, post: string)
    ensures Contains(pre + mid + post, mid)
  {
    var s := pre + mid + post;
    assert s[|pre|..|pre| + |mid|] == mid;
    assert OccursAt(s, mid, |pre|);
  }

  lemma ContainsSelf(s: string)
    ensures Contains(s, s)
  {
    assert OccursAt(s, s, 0);
  }

  /** Containment is transitive: a substring of a substring is a substring. */
  lemma ContainsTrans(a: string, b: string, c: string)
    requires Contains(b, a) && Contains(c, b)
    ensures Contains(c, a)
  {
    var i :| 0 <= i <= |b| - |a| && OccursAt(b, a, i);
    var j :| 0 <= j <= |c| - |b| && OccursAt(c, b, j);
    var window := c[j..j + |b|];
    assert window == b;
    var inner := c[j + i..j + i + |a|];
    var part := window[i..i + |a|];
    forall t | 0 <= t < |a|
      ensures inner[t] == part[t]
    {
      assert inner[t] == c[j + i + t];
      assert part[t] == window[i + t] == c[j + i + t];
    }
    assert inner == part;
    assert OccursAt(c, a, j + i);
  }

  /** A needle holding a character that the haystack lacks does not occur in it. */
  lemma MissingCharNotContained(hay: string, needle: string, c: char)
    requires c in needle && c !in hay
    ensures !Contains(hay, needle)
  {
    var t :| 0 <= t < |needle| && needle[t] == c;
    forall k | 0 <= k <= |hay| - |needle|
      ensures !OccursAt(hay, needle, k)
    {
      assert hay[k..k + |needle|][t] == hay[k + t] != c;
    }
  }

  predicate StartsWith(s: string, prefix: string)
  {
    |prefix| <= |s| && s[..|prefix|] == prefix
  }

  predicate EndsWith(s: string, suffix: string)
  {
    |suffix| <= |s| && s[|s| - |suffix|..] == suffix
  }

  // ---------------------------------------------------------------------------
  // join and split

  /** Python's `sep.join(parts)`. */
  function Join(parts: seq<string>, sep: string): string
  {
    if |parts| == 0 then ""
    else if |parts| == 1 then parts[0]
    else parts[0] + sep + Join(parts[1..], sep)
  }

  /** Every joined part is a substring of the joined text. */
  lemma {:induction false} JoinContainsPart(parts: seq<string>, sep: string, i: nat)
    requires i < |parts|
    ensures Contains(Join(parts, sep), parts[i])
  {
    if |parts| == 1 {
      ContainsSelf(parts[0]);
    } else if i == 0 {
      ContainsInfix("", parts[0], sep + Join(parts[1..], sep));
      assert "" + parts[0] + (sep + Join(parts[1..], sep)) == Join(parts, sep);
    } else {
      JoinContainsPart(parts[1..], sep, i - 1);
      ContainsInfix(parts[0] + sep, Join(parts[1..], sep), "");
      assert parts[0] + sep + Join(parts[1..], sep) + "" == Join(parts, sep);
      ContainsTrans(parts[i], Join(parts[1..], sep), Join(parts, sep));
    }
  }

  /** A character missing from every part and from the separator is missing
      from the joined text. */
  lemma {:induction false} JoinLacks(parts: seq<string>, sep: string, c: char)
    requires c !in sep && forall i :: 0 <= i < |parts| ==> c !in parts[i]
    ensures c !in Join(parts, sep)
  {
    if |parts| > 1 {
      JoinLacks(parts[1..], sep, c);
    }
  }

  /** The first index at or after `from` where `sub` occurs. */
  function IndexFrom(s: string, sub: string, from: nat): (r: Option<nat>)
    decreases |s| - from
    ensures r.Some? ==> from <= r.value && OccursAt(s, sub, r.value)
    ensures r.Some? ==> forall j :: from <= j < r.value ==> !OccursAt(s, sub, j)
    ensures r.None? ==> forall j :: from <= j ==> !OccursAt(s, sub, j)
  {
    if from + |sub| > |s| then None
    else if OccursAt(s, sub, from) then Some(from)
    else IndexFrom(s, sub, from + 1)
  }

  /** Python's `s.split(sep)` for a non-empty separator. */
  function Split(s: string, sep: string): (parts: seq<string>)
    requires |sep| > 0
    ensures |parts| >= 1
    decreases |s|
  {
    match IndexFrom(s, sep, 0)
    case None => [s]
    case Some(k) => [s[..k]] + Split(s[k + |sep|..], sep)
  }

  /** Joining a non-empty list after a first part puts one separator between them. */
  lemma JoinCons(first: string, tail: seq<string>, sep: string)
    requires |tail| >= 1
    ensures Join([first] + tail, sep) == first + sep + Join(tail, sep)
  {
    assert ([first] + tail)[1..] == tail;
  }

  /** One step of a split: the piece before the first separator, then the split of the rest. */
  lemma SplitStep(s: string, sep: string, k: nat)
    requires |sep| > 0 && IndexFrom(s, sep, 0) == Some(k)
    ensures k + |sep| <= |s|
    ensures Split(s, sep) == [s[..k]] + Split(s[k + |sep|..], sep)
  {
  }

  /** Text around an occurrence of `sep` is the parts before and after it. */
  lemma AroundOccurrence(s: string, sep: string, k: nat)
    requires OccursAt(s, sep, k)
    ensures s == s[..k] + sep + s[k + |sep|..]
  {
    assert s == s[..k] + s[k..k + |sep|] + s[k + |sep|..];
  }

  /** Joining the pieces of a split with the same separator gives the text back. */
  lemma {:induction false} SplitJoin(s: string, sep: string)
    requires |sep| > 0
    ensures Join(Split(s, sep), sep) == s
    decreases |s|
  {
    var r := IndexFrom(s, sep, 0);
    if r.Some? {
      var k := r.value;
      SplitStep(s, sep, k);
      AroundOccurrence(s, sep, k);
      var rest := s[k + |sep|..];
      SplitJoin(rest, sep);
      JoinCons(s[..k], Split(rest, sep), sep);
    }
  }

  /** No piece of a split contains the separator. */
  lemma {:induction false} SplitPiecesFree(s: string, sep: string)
    requires |sep| > 0
    ensures forall p :: p in Split(s, sep) ==> !Contains(p, sep)
    decreases |s|
  {
    match IndexFrom(s, sep, 0)
    case None =>
      assert Split(s, sep) == [s];
    case Some(k) =>
      var rest := s[k + |sep|..];
      SplitPiecesFree(rest, sep);
      assert Split(s, sep) == [s[..k]] + Split(rest, sep);
      PrefixOccurs(s, sep, k);
  }

  /** An occurrence inside a prefix is an occurrence in the whole string. */
  lemma PrefixOccurs(s: string, sub: string, k: nat)
    requires k <= |s|
    ensures forall j :: OccursAt(s[..k], sub, j) ==> OccursAt(s, sub, j)
  {
    forall j | OccursAt(s[..k], sub, j) ensures OccursAt(s, sub, j) {
      assert s[..k][j..j + |sub|] == s[j..j + |sub|];
    }
  }

  // ---------------------------------------------------------------------------
  // replace

  /** Python's `s.replace("", rep)`: `rep` before every character and at the end. */
  function ReplaceEmpty(s: string, rep: string): (r: string)
    ensures |r| >= |s| + |rep|
  {
    if s == [] then rep else rep + [s[0]] + ReplaceEmpty(s[1..], rep)
  }

  /** Python's `s.replace(pat, rep)`: every leftmost, non-overlapping occurrence. */
  function Replace(s: string, pat: string, rep: string): string
    decreases |s|
  {
    if pat == [] then ReplaceEmpty(s, rep)
    else if |s| < |pat| then s
    else if s[..|pat|] == pat then rep + Replace(s[|pat|..], pat, rep)
    else [s[0]] + Replace(s[1..], pat, rep)
  }

  lemma {:induction false} ReplaceLength(s: string, pat: string, rep: string)
    requires pat != []
    ensures |rep| >= |pat| ==> |Replace(s, pat, rep)| >= |s|
    ensures |rep| <= |pat| ==> |Replace(s, pat, rep)| <= |s|
    decreases |s|
  {
    if |s| < |pat| {
    } else if s[..|pat|] == pat {
      ReplaceLength(s[|pat|..], pat, rep);
    } else {
      ReplaceLength(s[1..], pat, rep);
    }
  }

  lemma {:induction false} ReplaceSame(s: string, e: string)
    ensures Replace(s, e, e) == s
    decreases |s|
  {
    if e == [] {
      ReplaceEmptyNothing(s);
    } else if |s| < |e| {
    } else if s[..|e|] == e {
      ReplaceSame(s[|e|..], e);
      assert s == s[..|e|] + s[|e|..];
    } else {
      ReplaceSame(s[1..], e);
      assert s == [s[0]] + s[1..];
    }
  }

  lemma {:induction false} ReplaceEmptyNothing(s: string)
    ensures ReplaceEmpty(s, "") == s
  {
    if s != [] {
      ReplaceEmptyNothing(s[1..]);
      assert s == [s[0]] + s[1..];
    }
  }

  lemma {:induction false} ReplaceAbsent(s: string, e: string, r: string)
    requires !Contains(s, e)
    ensures Replace(s, e, r) == s
    decreases |s|
  {
    if e == [] {
      assert OccursAt(s, e, 0);
    } else if |s| < |e| {
    } else {
      assert !OccursAt(s, e, 0);
      if Contains(s[1..], e) {
        var k :| 0 <= k <= |s[1..]| - |e| && OccursAt(s[1..], e, k);
        assert s[k + 1..k + 1 + |e|] == s[1..][k..k + |e|];
        assert OccursAt(s, e, k + 1);
      }
      ReplaceAbsent(s[1..], e, r);
      assert s == [s[0]] + s[1..];
    }
  }

  lemma {:induction false} ReplacePresent(s: string, e: string, r: string)
    requires Contains(s, e) && e != r
    ensures Replace(s, e, r) != s
    decreases |s|
  {
    if e == [] {
    } else if s[..|e|] == e {
      var rest := s[|e|..];
      ReplaceLength(rest, e, r);
      assert s == e + rest;
      if |r| == |e| {
        assert (r + Replace(rest, e, r))[..|e|] == r;
      }
    } else {
      var k :| 0 <= k <= |s| - |e| && OccursAt(s, e, k);
      assert k != 0;
      assert s[1..][k - 1..k - 1 + |e|] == s[k..k + |e|];
      assert OccursAt(s[1..], e, k - 1);
      ReplacePresent(s[1..], e, r);
      assert Replace(s, e, r) == [s[0]] + Replace(s[1..], e, r);
      assert s == [s[0]] + s[1..];
    }
  }

  /** A substitution leaves the text unchanged exactly when the pattern does not
      occur in it or is replaced by itself. */
  lemma ReplaceUnchangedIff(s: string, e: string, r: string)
    ensures Replace(s, e, r) == s <==> (!Contains(s, e) || e == r)
  {
    if !Contains(s, e) {
      ReplaceAbsent(s, e, r);
    } else if e == r {
      ReplaceSame(s, e);
    } else {
      ReplacePresent(s, e, r);
    }
  }

  // ---------------------------------------------------------------------------
  // Case mapping (ASCII letters only)

  function LowerChar(c: char): char
  {
    if 'A' <= c <= 'Z' then (c as int + 32) as char else c
  }

  function UpperChar(c: char): char
  {
    if 'a' <= c <= 'z' then (c as int - 32) as char else c
  }

  /** Python's `s.lower()` restricted to ASCII letters. */
  function Lower(s: string): (r: string)
    ensures |r| == |s|
  {
    seq(|s|, i requires 0 <= i < |s| => LowerChar(s[i]))
  }

  lemma LowerIdempotent(s: string)
    ensures Lower(Lower(s)) == Lower(s)
  {
  }

  /** Python's `s.capitalize()` restricted to ASCII letters. */
  function Capitalize(s: string): (r: string)
    ensures |r| == |s|
  {
    if s == [] then [] else [UpperChar(s[0])] + Lower(s[1..])
  }

  // ---------------------------------------------------------------------------
  // strip

  /** The characters Python's `str.strip()` removes by default (`str.isspace`). */
  const Whitespace: set<char> := {
    ' ', '\t', '\n', '\r', '\U{0B}', '\U{0C}', '\U{1C}', '\U{1D}', '\U{1E}', '\U{1F}',
    '\U{85}', '\U{A0}', '\U{1680}', '\U{2000}', '\U{2001}', '\U{2002}', '\U{2003}',
    '\U{2004}', '\U{2005}', '\U{2006}', '\U{2007}', '\U{2008}', '\U{2009}', '\U{200A}',
    '\U{2028}', '\U{2029}', '\U{202F}', '\U{205F}', '\U{3000}'
  }

  /** How many leading characters of `s` belong to `cs`. */
  function LeadingCount(s: string, cs: set<char>): (n: nat)
    ensures n <= |s|
  {
    if s == [] || s[0] !in cs then 0 else 1 + LeadingCount(s[1..], cs)
  }

  /** The leading run is all in `cs`, and the character after it is not. */
  lemma {:induction false} LeadingCountShape(s: string, cs: set<char>)
    ensures forall k :: 0 <= k < LeadingCount(s, cs) ==> s[k] in cs
    ensures LeadingCount(s, cs) == |s| || s[LeadingCount(s, cs)] !in cs
    decreases |s|
  {
    if s != [] && s[0] in cs {
      LeadingCountShape(s[1..], cs);
      assert forall k :: 1 <= k < |s| ==> s[k] == s[1..][k - 1];
    }
  }

  /** How many trailing characters of `s` belong to `cs`. */
  function TrailingCount(s: string, cs: set<char>): (n: nat)
    ensures n <= |s|
  {
    if s == [] || s[|s| - 1] !in cs then 0 else 1 + TrailingCount(s[..|s| - 1], cs)
  }

  /** The trailing run is all in `cs`, and the character before it is not. */
  lemma {:induction false} TrailingCountShape(s: string, cs: set<char>)
    ensures forall k :: |s| - TrailingCount(s, cs) <= k < |s| ==> s[k] in cs
    ensures TrailingCount(s, cs) == |s| || s[|s| - TrailingCount(s, cs) - 1] !in cs
    decreases |s|
  {
    if s != [] && s[|s| - 1] in cs {
      TrailingCountShape(s[..|s| - 1], cs);
    }
  }

  /** Python's `s.lstrip(chars)`. */
  function LStrip(s: string, cs: set<char>): string
  {
    s[LeadingCount(s, cs)..]
  }

  /** Python's `s.rstrip(chars)`. */
  function RStrip(s: string, cs: set<char>): string
  {
    s[..|s| - TrailingCount(s, cs)]
  }

  /** Python's `s.strip(chars)`: the middle of `s` once characters of `cs` are
      removed from both ends. */
  function Strip(s: string, cs: set<char>): (r: string)
    ensures |r| <= |s|
  {
    var t := s[LeadingCount(s, cs)..];
    t[..|t| - TrailingCount(t, cs)]
  }

  /** The stripped text is a slice of `s` with only characters of `cs` cut
      from either end, and it neither starts nor ends with one of them. */
  lemma StripShape(s: string, cs: set<char>)
    ensures exists i, j :: 0 <= i <= j <= |s| && Strip(s, cs) == s[i..j]
                           && (forall k :: 0 <= k < i ==> s[k] in cs)
                           && (forall k :: j <= k < |s| ==> s[k] in cs)
    ensures Strip(s, cs) != [] ==> Strip(s, cs)[0] !in cs && Strip(s, cs)[|Strip(s, cs)| - 1] !in cs
  {
    var i := LeadingCount(s, cs);
    LeadingCountShape(s, cs);
    var t := s[i..];
    var n := TrailingCount(t, cs);
    TrailingCountShape(t, cs);
    assert Strip(s, cs) == t[..|t| - n] == s[i..|s| - n];
    assert forall k :: |s| - n <= k < |s| ==> s[k] == t[k - i];
  }

  /** The stripped text is a substring of the original. */
  lemma StripContained(s: string, cs: set<char>)
    ensures Contains(s, Strip(s, cs))
  {
    StripShape(s, cs);
    var r := Strip(s, cs);
    var i, j :| 0 <= i <= j <= |s| && r == s[i..j];
    assert OccursAt(s, r, i);
  }

  lemma {:induction false} StripIdempotent(s: string, cs: set<char>)
    ensures Strip(Strip(s, cs), cs) == Strip(s, cs)
  {
    var r := Strip(s, cs);
    StripShape(s, cs);
    if r == [] {
    } else {
      assert LeadingCount(r, cs) == 0;
      assert TrailingCount(r, cs) == 0;
    }
  }

  // ---------------------------------------------------------------------------
  // Integers as decimal text

  predicate IsDigit(c: char)
  {
    '0' <= c <= '9'
  }

  function DigitChar(d: nat): (c: char)
    requires d < 10
    ensures IsDigit(c) && c as int - '0' as int == d
  {
    ('0' as int + d) as char
  }

  /** Python's `str(n)` for a natural number. */
  function NatToString(n: nat): (s: string)
    ensures |s| >= 1 && forall i :: 0 <= i < |s| ==> IsDigit(s[i])
  {
    if n < 10 then [DigitChar(n)] else NatToString(n / 10) + [DigitChar(n % 10)]
  }

  /** Python's `str(i)` for an integer. */
  function IntToString(i: int): string
  {
    if i < 0 then "-" + NatToString(-i) else NatToString(i)
  }

  /** The value of a string of decimal digits. */
  function DigitsValue(s: string): nat
    requires forall i :: 0 <= i < |s| ==> IsDigit(s[i])
  {
    if s == [] then 0
    else
      assert IsDigit(s[|s| - 1]);
      10 * DigitsValue(s[..|s| - 1]) + (s[|s| - 1] as int - '0' as int)
  }

  /** Decimal digits, optionally grouped by single underscores between two
      digits, as `int()` accepts them: `1_000`, but not `_1`, `1_` or `1__0`. */
  predicate Grouped(s: string)
  {
    && s != [] && IsDigit(s[0]) && IsDigit(s[|s| - 1])
    && (forall i :: 0 <= i < |s| ==> IsDigit(s[i]) || s[i] == '_')
    && (forall i :: 0 <= i < |s| - 1 ==> s[i] == '_' ==> IsDigit(s[i + 1]))
  }

  /** The text with its grouping underscores removed. */
  function Ungrouped(s: string): (r: string)
    ensures (forall i :: 0 <= i < |s| ==> IsDigit(s[i]) || s[i] == '_') ==> forall i :: 0 <= i < |r| ==> IsDigit(r[i])
    ensures (forall i :: 0 <= i < |s| ==> s[i] != '_') ==> r == s
    ensures |r| <= |s|
  {
    if s == [] then []
    else (if s[0] == '_' then [] else [s[0]]) + Ungrouped(s[1..])
  }

  /** The value of the digits of `int()`'s text, or `None` when they are not
      well grouped. */
  function ParseDigits(s: string): (r: Option<nat>)
    ensures r.Some? <==> Grouped(s)
    ensures (s != [] && forall i :: 0 <= i < |s| ==> IsDigit(s[i])) ==> r == Some(DigitsValue(s))
  {
    if Grouped(s) then Some(DigitsValue(Ungrouped(s))) else None
  }

  /** Python's `int(s)` for base-10 text: surrounding whitespace, an optional sign,
      and ASCII digits with single underscores between them; `None` where Python
      raises `ValueError`. */
  function ParseInt(s: string): Option<int>
  {
    var t := Strip(s, Whitespace);
    if t != [] && (t[0] == '-' || t[0] == '+') then
      match ParseDigits(t[1..])
      case Some(n) => var v: int := if t[0] == '-' then -(n as int) else n; Some(v)
      case None => None
    else
      match ParseDigits(t)
      case Some(n) => Some(n)
      case None => None
  }

  lemma {:induction false} UngroupedAppend(a: string, b: string)
    ensures Ungrouped(a + b) == Ungrouped(a) + Ungrouped(b)
    decreases |a|
  {
    if a == [] {
      assert a + b == b;
    } else {
      assert (a + b)[1..] == a[1..] + b;
      UngroupedAppend(a[1..], b);
    }
  }

  /** Two well-grouped texts joined directly are well grouped. */
  lemma GroupedConcat(a: string, b: string)
    requires Grouped(a) && Grouped(b)
    ensures Grouped(a + b)
  {
    var t := a + b;
    forall i | 0 <= i < |t| ensures IsDigit(t[i]) || t[i] == '_' {
      if i < |a| { assert t[i] == a[i]; } else { assert t[i] == b[i - |a|]; }
    }
    forall i | 0 <= i < |t| - 1 && t[i] == '_'
      ensures IsDigit(t[i + 1])
    {
      if i < |a| - 1 {
        assert t[i] == a[i] && t[i + 1] == a[i + 1];
      } else if i >= |a| {
        assert t[i] == b[i - |a|] && t[i + 1] == b[i - |a| + 1];
      }
    }
  }

  /** Two well-grouped texts joined by one underscore are well grouped. */
  lemma GroupedSplice(a: string, b: string)
    requires Grouped(a) && Grouped(b)
    ensures Grouped(a + "_" + b)
  {
    var t := a + "_" + b;
    forall i | 0 <= i < |t| ensures IsDigit(t[i]) || t[i] == '_' {
      if i < |a| { assert t[i] == a[i]; } else if i > |a| { assert t[i] == b[i - |a| - 1]; }
    }
    forall i | 0 <= i < |t| - 1 && t[i] == '_'
      ensures IsDigit(t[i + 1])
    {
      if i < |a| - 1 {
        assert t[i] == a[i] && t[i + 1] == a[i + 1];
      } else if i > |a| {
        assert t[i] == b[i - |a| - 1] && t[i + 1] == b[i - |a|];
      }
    }
  }

  lemma UngroupedSplice(a: string, b: string)
    ensures Ungrouped(a + "_" + b) == Ungrouped(a + b)
  {
    UngroupedAppend(a + "_", b);
    UngroupedAppend(a, "_");
    UngroupedAppend(a, b);
    UnderscoreDropped();
  }

  lemma UnderscoreDropped()
    ensures Ungrouped("_") == []
  {
    assert "_"[1..] == [];
  }

  /** An underscore between two well-grouped texts does not change the value. */
  lemma UnderscoreIgnored(a: string, b: string)
    requires Grouped(a) && Grouped(b)
    ensures ParseDigits(a + "_" + b) == ParseDigits(a + b)
    ensures ParseDigits(a + b).Some?
  {
    GroupedConcat(a, b);
    GroupedSplice(a, b);
    UngroupedSplice(a, b);
  }

  /** Digits alone are well grouped. */
  lemma DigitsGrouped(s: string)
    requires s != [] && forall i :: 0 <= i < |s| ==> IsDigit(s[i])
    ensures Grouped(s)
  {
  }

  lemma ThousandGrouped()
    ensures ParseDigits("1_000") == Some(1000)
  {
    DigitsGrouped("1");
    DigitsGrouped("000");
    UnderscoreIgnored("1", "000");
    assert "1" + "_" + "000" == "1_000";
    assert "1" + "000" == "1000";
    ThousandValue();
  }

  lemma ThousandValue()
    ensures DigitsValue("1000") == 1000
  {
    assert "1000"[..3] == "100";
    assert "100"[..2] == "10";
    assert "10"[..1] == "1";
  }

  /** `int("1_000")` is a thousand. */
  lemma ParseIntGrouped()
    ensures ParseInt("1_000") == Some(1000)
  {
    DigitNotSpace('1');
    DigitNotSpace('0');
    StripKeeps("1_000", Whitespace);
    ThousandGrouped();
  }

  lemma {:induction false} NatToStringValue(n: nat)
    ensures DigitsValue(NatToString(n)) == n
  {
    if n >= 10 {
      NatToStringValue(n / 10);
      var s := NatToString(n);
      assert s[..|s| - 1] == NatToString(n / 10);
    }
  }

  lemma DigitNotSpace(c: char)
    requires IsDigit(c)
    ensures c !in Whitespace
  {
  }

  /** Text made only of stripped characters strips to nothing. */
  lemma StripBlank(s: string, cs: set<char>)
    requires forall k :: 0 <= k < |s| ==> s[k] in cs
    ensures Strip(s, cs) == ""
  {
    LeadingCountShape(s, cs);
  }

  /** Stripping leaves a text alone whose end characters are not stripped. */
  lemma StripKeeps(s: string, cs: set<char>)
    requires s != [] && s[0] !in cs && s[|s| - 1] !in cs
    ensures Strip(s, cs) == s
  {
    assert LeadingCount(s, cs) == 0;
    assert TrailingCount(s, cs) == 0;
  }

  /** Reading back the decimal text of an integer gives the integer. */
  lemma IntToStringRoundTrip(i: int)
    ensures ParseInt(IntToString(i)) == Some(i)
  {
    var s := IntToString(i);
    var m: nat := if i < 0 then -i else i;
    var digits := NatToString(m);
    NatToStringValue(m);
    assert s[|s| - 1] == digits[|digits| - 1];
    DigitNotSpace(digits[|digits| - 1]);
    if i < 0 {
      assert s[0] == '-';
      StripKeeps(s, Whitespace);
      assert s[1..] == digits;
    } else {
      DigitNotSpace(s[0]);
      StripKeeps(s, Whitespace);
    }
  }
}
