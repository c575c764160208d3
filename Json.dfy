/**
 * JSON documents as the Python code sees them after `json.loads` or
 * `munchify`: None, bool, int, str, list and dict (kept in insertion order),
 * with the Python operations the modelled code applies to them: `str()`
 * and `repr()`, `==`, truth testing, attribute access on a Munch,
 * subscripts, `dict.get`, the `in` operator and iteration.
 */
module Json {
  import opened Wrappers
  import opened Dict
  import Text

  datatype Value =
    | Null
    | Bool(b: bool)
    | Int(i: int)
    | Str(s: string)
    | List(items: seq<Value>)
    | Object(fields: seq<(string, Value)>)

  // ---------------------------------------------------------------------------
  // Truth testing and equality

  /** Python truth testing: None, False, 0 and empty containers are false. */
  predicate Truthy(v: Value)
  {
    match v
    case Null => false
    case Bool(b) => b
    case Int(i) => i != 0
    case Str(s) => s != ""
    case List(items) => items != []
    case Object(fields) => fields != []
  }

  /** The integer a number stands for; `True == 1` and `False == 0` in Python. */
  predicate IsNumber(v: Value)
  {
    v.Bool? || v.Int?
  }

  function NumberValue(v: Value): int
    requires IsNumber(v)
  {
    if v.Bool? then (if v.b then 1 else 0) else v.i
  }

  /** Python's `==` on values: numbers by value, lists element-wise, dicts
      by key set and per-key value, whatever the insertion order. */
  predicate PyEq(a: Value, b: Value)
    decreases a
  {
    match a
    case Null => b.Null?
    case Bool(_) => IsNumber(b) && NumberValue(a) == NumberValue(b)
    case Int(_) => IsNumber(b) && NumberValue(a) == NumberValue(b)
    case Str(s) => b.Str? && b.s == s
    case List(xs) =>
      b.List? && |xs| == |b.items| &&
      forall i :: 0 <= i < |xs| ==> PyEq(xs[i], b.items[i])
    case Object(fs) =>
      b.Object? && |fs| == |b.fields| &&
      forall i :: 0 <= i < |fs| ==>
        Lookup(b.fields, fs[i].0).Some? && PyEq(fs[i].1, Lookup(b.fields, fs[i].0).value)
  }

  /** Every dict inside `v` (and `v` itself) holds each key once. */
  predicate WellFormed(v: Value)
    decreases v
  {
    match v
    case List(items) => forall i :: 0 <= i < |items| ==> WellFormed(items[i])
    case Object(fs) => UniqueKeys(fs) && forall i :: 0 <= i < |fs| ==> WellFormed(fs[i].1)
    case _ => true
  }

  lemma {:induction false} PyEqReflexive(a: Value)
    requires WellFormed(a)
    ensures PyEq(a, a)
    decreases a
  {
    match a
    case List(xs) =>
      forall i | 0 <= i < |xs| ensures PyEq(xs[i], xs[i]) {
        PyEqReflexive(xs[i]);
      }
    case Object(fs) =>
      forall i | 0 <= i < |fs|
        ensures Lookup(fs, fs[i].0).Some? && PyEq(fs[i].1, Lookup(fs, fs[i].0).value)
      {
        PyEqReflexive(fs[i].1);
        LookupAt(fs, i);
      }
    case _ =>
  }

  // ---------------------------------------------------------------------------
  // str() and repr()

  /**
   * Characters above U+00FF that are not printable in Python's sense
   * (`str.isprintable()`): the space separators, the line and paragraph
   * separators, the format characters, the private-use planes and the
   * permanent noncharacters of the basic plane. Python's `repr()` prints
   * them as `\uXXXX` or `\UXXXXXXXX`.
   */
  predicate WideUnprintable(c: char)
  {
    var n := c as int;
    || (0x600 <= n <= 0x605) || n == 0x61c || n == 0x6dd || n == 0x70f
    || (0x890 <= n <= 0x891) || n == 0x8e2 || n == 0x1680 || n == 0x180e
    || (0x2000 <= n <= 0x200f) || (0x2028 <= n <= 0x202f) || (0x205f <= n <= 0x2064)
    || (0x2066 <= n <= 0x206f) || n == 0x3000
    || (0xe000 <= n <= 0xf8ff) || (0xfdd0 <= n <= 0xfdef) || n == 0xfeff
    || (0xfff9 <= n <= 0xfffb) || (0xfffe <= n <= 0xffff)
    || n == 0x110bd || n == 0x110cd || (0x13430 <= n <= 0x1343f) || (0x1bca0 <= n <= 0x1bca3)
    || (0x1d173 <= n <= 0x1d17a) || n == 0xe0001 || (0xe0020 <= n <= 0xe007f)
    || 0xf0000 <= n
  }

  /** Characters that `repr()` of a string may print differently from themselves. */
  predicate Escapable(c: char)
  {
    || c == '\\' || c == '\'' || c as int < 0x20 || (0x7f <= c as int <= 0xa0) || c as int == 0xad
    || WideUnprintable(c)
  }

  /** A needle of printable ASCII characters other than `\` and `'`, which
      `repr()` prints as themselves whatever the Unicode version. */
  predicate Plain(s: string)
  {
    forall i :: 0 <= i < |s| ==> ' ' <= s[i] <= '~' && s[i] != '\\' && s[i] != '\''
  }

  /** The characters escape sequences are made of. */
  predicate PrintableAscii(c: char)
  {
    ' ' <= c <= '~'
  }

  function HexDigit(d: nat): (c: char)
    requires d < 16
    ensures PrintableAscii(c)
  {
    "0123456789abcdef"[d]
  }

  /** The last `width` hexadecimal digits of `n`, in lower case. */
  function Hex(n: nat, width: nat): (r: string)
    ensures |r| == width
  {
    if width == 0 then "" else Hex(n / 16, width - 1) + [HexDigit(n % 16)]
  }

  lemma {:induction false} HexPrintable(n: nat, width: nat)
    ensures forall i :: 0 <= i < width ==> PrintableAscii(Hex(n, width)[i])
  {
    if width > 0 {
      HexPrintable(n / 16, width - 1);
    }
  }

  /** How `repr()` prints one character of a string; `dq` says the string is
      quoted with `"`, in which case `'` needs no escape. */
  function EscapeChar(c: char, dq: bool): (r: string)
    ensures |r| >= 1
    ensures !Escapable(c) ==> r == [c]
    ensures Escapable(c) && c != '\'' ==> r[0] == '\\'
  {
    if c == '\\' then "\\\\"
    else if c == '\n' then "\\n"
    else if c == '\r' then "\\r"
    else if c == '\t' then "\\t"
    else if c == '\'' then (if dq then "'" else "\\'")
    else if c as int < 0x20 || (0x7f <= c as int <= 0xa0) || c as int == 0xad then
      "\\x" + Hex(c as int, 2)
    else if WideUnprintable(c) then
      if c as int < 0x10000 then "\\u" + Hex(c as int, 4) else "\\U" + Hex(c as int, 8)
    else [c]
  }

  function Escape(s: string, dq: bool): string
  {
    if s == [] then "" else EscapeChar(s[0], dq) + Escape(s[1..], dq)
  }

  lemma {:induction false} EscapeAppend(a: string, b: string, dq: bool)
    ensures Escape(a + b, dq) == Escape(a, dq) + Escape(b, dq)
    decreases |a|
  {
    if a != [] {
      assert (a + b)[1..] == a[1..] + b;
      EscapeAppend(a[1..], b, dq);
    } else {
      assert a + b == b;
    }
  }

  /** `repr()` leaves a plain text unchanged. */
  lemma {:induction false} EscapePlain(s: string, dq: bool)
    requires Plain(s)
    ensures Escape(s, dq) == s
    decreases |s|
  {
    if s != [] {
      EscapePlain(s[1..], dq);
      assert s == [s[0]] + s[1..];
    }
  }

  /** A plain needle found in a string is still found in its escaped text. */
  lemma EscapeKeepsPlain(s: string, needle: string, dq: bool)
    requires Plain(needle) && Text.Contains(s, needle)
    ensures Text.Contains(Escape(s, dq), needle)
  {
    var k :| 0 <= k <= |s| - |needle| && Text.OccursAt(s, needle, k);
    var pre, post := s[..k], s[k + |needle|..];
    assert s == pre + needle + post;
    EscapeAppend(pre + needle, post, dq);
    EscapeAppend(pre, needle, dq);
    EscapePlain(needle, dq);
    Text.ContainsInfix(Escape(pre, dq), needle, Escape(post, dq));
  }

  /** Escape sequences are made of printable ASCII. */
  lemma EscapeCharPrintable(c: char, dq: bool)
    requires Escapable(c)
    ensures forall i :: 0 <= i < |EscapeChar(c, dq)| ==> PrintableAscii(EscapeChar(c, dq)[i])
  {
    HexPrintable(c as int, 2);
    HexPrintable(c as int, 4);
    HexPrintable(c as int, 8);
  }

  /** A character that `repr()` escapes into printable ASCII never shows in
      an escaped text. */
  lemma {:induction false} EscapeLacks(s: string, c: char, dq: bool)
    requires Escapable(c) && !PrintableAscii(c)
    ensures c !in Escape(s, dq)
    decreases |s|
  {
    if s != [] {
      EscapeLacks(s[1..], c, dq);
      var head := EscapeChar(s[0], dq);
      forall i | 0 <= i < |head| ensures head[i] != c {
        if Escapable(s[0]) {
          EscapeCharPrintable(s[0], dq);
        }
      }
    }
  }

  /** `repr(s)` uses double quotes when the text holds `'` and no `"`. */
  predicate DoubleQuoted(s: string)
  {
    '\'' in s && '"' !in s
  }

  /** Python's `repr(s)` for a string: the escaped text between quotes. */
  function StrRepr(s: string): string
  {
    var q := if DoubleQuoted(s) then '"' else '\'';
    [q] + Escape(s, DoubleQuoted(s)) + [q]
  }

  /** The `repr()` of a string shows its escaped text. */
  lemma StrReprShows(s: string)
    ensures Text.Contains(StrRepr(s), Escape(s, DoubleQuoted(s)))
  {
    var q := if DoubleQuoted(s) then '"' else '\'';
    Text.ContainsInfix([q], Escape(s, DoubleQuoted(s)), [q]);
  }

  /** Such a character never shows in the `repr()` of a string either. */
  lemma StrReprLacks(s: string, c: char)
    requires Escapable(c) && !PrintableAscii(c)
    ensures c !in StrRepr(s)
  {
    EscapeLacks(s, c, DoubleQuoted(s));
  }

  /** Python's `repr()` of a value; `munch` says the dicts are Munch objects,
      which print as `Munch({...})`. */
  function PyRepr(v: Value, munch: bool): string
    decreases v
  {
    match v
    case Null => "None"
    case Bool(b) => if b then "True" else "False"
    case Int(i) => Text.IntToString(i)
    case Str(s) => StrRepr(s)
    case List(items) =>
      "[" + Text.Join(seq(|items|, i requires 0 <= i < |items| => PyRepr(items[i], munch)), ", ") + "]"
    case Object(fields) =>
      var parts := seq(|fields|, i requires 0 <= i < |fields| => StrRepr(fields[i].0) + ": " + PyRepr(fields[i].1, munch));
      var body := "{" + Text.Join(parts, ", ") + "}";
      if munch then "Munch(" + body + ")" else body
  }

  /** Python's `str()` of a value: a string is its own text, anything else its `repr()`. */
  function PyStr(v: Value, munch: bool): (r: string)
    ensures !v.Str? ==> r == PyRepr(v, munch)
  {
    if v.Str? then v.s else PyRepr(v, munch)
  }

  lemma ScalarReprLacks(v: Value, c: char)
    requires v.Null? || v.Bool? || v.Int?
    requires !PrintableAscii(c)
    ensures c !in PyRepr(v, false)
  {
    match v
    case Null =>
      assert forall i :: 0 <= i < 4 ==> PrintableAscii("None"[i]);
    case Bool(b) =>
      assert forall i :: 0 <= i < 4 ==> PrintableAscii("True"[i]);
      assert forall i :: 0 <= i < 5 ==> PrintableAscii("False"[i]);
    case Int(i) =>
      var digits := Text.NatToString(if i < 0 then -i else i);
      assert forall k :: 0 <= k < |digits| ==> PrintableAscii(digits[k]);
  }

  /** No document's `repr()` shows a character that `repr()` escapes into
      printable ASCII: strings print it as an escape sequence, and everything
      else the text is made of is printable ASCII. */
  lemma {:induction false} ReprLacks(v: Value, munch: bool, c: char)
    requires Escapable(c) && !PrintableAscii(c)
    ensures c !in PyRepr(v, munch)
    decreases v
  {
    match v
    case Null => ScalarReprLacks(v, c);
    case Bool(_) => ScalarReprLacks(v, c);
    case Int(_) => ScalarReprLacks(v, c);
    case Str(s) =>
      StrReprLacks(s, c);
    case List(items) =>
      forall i | 0 <= i < |items| ensures c !in PyRepr(items[i], munch) {
        ReprLacks(items[i], munch, c);
      }
      ListReprLacks(items, munch, c);
    case Object(fields) =>
      forall i | 0 <= i < |fields| ensures c !in PyRepr(fields[i].1, munch) {
        ReprLacks(fields[i].1, munch, c);
      }
      ObjectReprLacks(fields, munch, c);
  }

  lemma ListReprLacks(items: seq<Value>, munch: bool, c: char)
    requires !PrintableAscii(c) && forall i :: 0 <= i < |items| ==> c !in PyRepr(items[i], munch)
    ensures c !in PyRepr(List(items), munch)
  {
    var parts := seq(|items|, i requires 0 <= i < |items| => PyRepr(items[i], munch));
    Text.JoinLacks(parts, ", ", c);
  }

  lemma ObjectReprLacks(fields: seq<(string, Value)>, munch: bool, c: char)
    requires Escapable(c) && !PrintableAscii(c)
    requires forall i :: 0 <= i < |fields| ==> c !in PyRepr(fields[i].1, munch)
    ensures c !in PyRepr(Object(fields), munch)
  {
    var parts := seq(|fields|, i requires 0 <= i < |fields| => StrRepr(fields[i].0) + ": " + PyRepr(fields[i].1, munch));
    forall i | 0 <= i < |parts| ensures c !in parts[i] {
      FieldTextLacks(fields[i].0, PyRepr(fields[i].1, munch), c);
    }
    Text.JoinLacks(parts, ", ", c);
    WrappedLacks(Text.Join(parts, ", "), munch, c);
  }

  lemma FieldTextLacks(key: string, value: string, c: char)
    requires Escapable(c) && !PrintableAscii(c) && c !in value
    ensures c !in StrRepr(key) + ": " + value
  {
    StrReprLacks(key, c);
  }

  lemma WrappedLacks(joined: string, munch: bool, c: char)
    requires !PrintableAscii(c) && c !in joined
    ensures c !in (if munch then "Munch(" + ("{" + joined + "}") + ")" else "{" + joined + "}")
  {
    assert forall i :: 0 <= i < 6 ==> PrintableAscii("Munch("[i]);
  }

  // ---------------------------------------------------------------------------
  // Access

  /** Attribute access on a Munch (`d.key`): a missing key raises AttributeError. */
  function Attr(v: Value, key: string): (r: Result<Value>)
    ensures r.Ok? <==> v.Object? && Lookup(v.fields, key).Some?
    ensures r.Ok? ==> r.value == Lookup(v.fields, key).value
    ensures r.Err? ==> r.error == AttributeError(key)
  {
    if v.Object? && Lookup(v.fields, key).Some? then Ok(Lookup(v.fields, key).value)
    else Err(AttributeError(key))
  }

  /** `v[key]` with a string key: KeyError on a dict without it, TypeError on anything else. */
  function Subscript(v: Value, key: string): (r: Result<Value>)
    ensures r.Ok? <==> v.Object? && Lookup(v.fields, key).Some?
    ensures r.Ok? ==> r.value == Lookup(v.fields, key).value
    ensures r.Err? ==> r.error == (if v.Object? then KeyError(key) else TypeError)
  {
    if !v.Object? then Err(TypeError)
    else match Lookup(v.fields, key)
      case Some(x) => Ok(x)
      case None => Err(KeyError(key))
  }

  /** `v.get(key, default)`: only dicts have `get`. */
  function DictGet(v: Value, key: string, default: Value): (r: Result<Value>)
    ensures v.Object? <==> r.Ok?
    ensures v.Object? ==> r.value == (if Lookup(v.fields, key).Some? then Lookup(v.fields, key).value else default)
  {
    if !v.Object? then Err(AttributeError("get"))
    else match Lookup(v.fields, key)
      case Some(x) => Ok(x)
      case None => Ok(default)
  }

  /** Python's `key in v` for a string `key`. */
  function PyIn(key: string, v: Value): (r: Result<bool>)
    ensures v.Object? ==> r == Ok(key in Keys(v.fields))
    ensures v.Str? ==> r == Ok(Text.Contains(v.s, key))
    ensures v.List? ==> r == Ok(exists i :: 0 <= i < |v.items| && PyEq(Str(key), v.items[i]))
    ensures (v.Null? || v.Bool? || v.Int?) ==> r == Err(TypeError)
  {
    match v
    case Object(fields) => Ok(key in Keys(fields))
    case Str(s) => Ok(Text.Contains(s, key))
    case List(items) => Ok(exists i :: 0 <= i < |items| && PyEq(Str(key), items[i]))
    case _ => Err(TypeError)
  }

  /** What `for x in v` visits: a dict's keys, a list's items, a string's characters. */
  function PyIter(v: Value): (r: Result<seq<Value>>)
    ensures v.List? ==> r == Ok(v.items)
    ensures v.Object? ==> r.Ok? && |r.value| == |v.fields|
                          && forall i :: 0 <= i < |v.fields| ==> r.value[i] == Str(v.fields[i].0)
    ensures v.Str? ==> r.Ok? && |r.value| == |v.s|
    ensures (v.Null? || v.Bool? || v.Int?) <==> r.Err?
  {
    match v
    case List(items) => Ok(items)
    case Object(fields) => Ok(seq(|fields|, i requires 0 <= i < |fields| => Str(fields[i].0)))
    case Str(s) => Ok(seq(|s|, i requires 0 <= i < |s| => Str([s[i]])))
    case _ => Err(TypeError)
  }
}
