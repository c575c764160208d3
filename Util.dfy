/**
 * The small helpers of `grafana_wtf/util.py`: reading a separated list,
 * reading a truth value, wrapping a value in a list, normalising the
 * command-line option names and printing a dict as aligned lines.
 */
module Util {
  import opened Wrappers
  import opened Dict
  import opened Json
  import Text

  // ---------------------------------------------------------------------------
  // read_list

  /** `read_list(data, separator)`: the separated pieces, each stripped of
      whitespace; no text, or text that is only blanks, gives no pieces. */
  function ReadList(data: Option<string>, separator: string): (r: Result<seq<string>>)
    ensures data.None? ==> r == Ok([])
    ensures data.Some? ==> (r.Ok? <==> separator != "")
    ensures r.Err? ==> r.error == ValueError
    ensures r.Ok? && data.Some? ==>
      forall x :: x in r.value ==>
        !Text.Contains(x, separator) && (x != [] ==> x[0] !in Text.Whitespace && x[|x| - 1] !in Text.Whitespace)
  {
    if data.None? then Ok([])
    else if separator == "" then Err(ValueError)
    else
      var pieces := Text.Split(data.value, separator);
      var result := seq(|pieces|, i requires 0 <= i < |pieces| => Text.Strip(pieces[i], Text.Whitespace));
      Text.SplitPiecesFree(data.value, separator);
      PiecesStayFree(pieces, result, separator);
      assert forall x :: x in result ==> x != [] ==> x[0] !in Text.Whitespace && x[|x| - 1] !in Text.Whitespace by {
        forall x | x in result && x != []
          ensures x[0] !in Text.Whitespace && x[|x| - 1] !in Text.Whitespace
        {
          var i :| 0 <= i < |result| && result[i] == x;
          Text.StripShape(pieces[i], Text.Whitespace);
        }
      }
      if |result| == 1 && result[0] == "" then Ok([]) else Ok(result)
  }

  /** Stripping the pieces of a split keeps the separator out of them. */
  lemma PiecesStayFree(pieces: seq<string>, result: seq<string>, separator: string)
    requires separator != [] && |result| == |pieces|
    requires forall p :: p in pieces ==> !Text.Contains(p, separator)
    requires forall i :: 0 <= i < |pieces| ==> result[i] == Text.Strip(pieces[i], Text.Whitespace)
    ensures forall x :: x in result ==> !Text.Contains(x, separator)
  {
    forall x | x in result
      ensures !Text.Contains(x, separator)
    {
      var i :| 0 <= i < |result| && result[i] == x;
      Text.StripContained(pieces[i], Text.Whitespace);
      if Text.Contains(x, separator) {
        Text.ContainsTrans(separator, x, pieces[i]);
      }
    }
  }

  /** With a one-character separator, the first occurrence in a joined list
      is right after the first part. */
  lemma FirstSeparator(first: string, rest: string, separator: string)
    requires |separator| == 1 && separator[0] !in first
    ensures Text.IndexFrom(first + separator + rest, separator, 0) == Some(|first|)
  {
    var s := first + separator + rest;
    assert Text.OccursAt(s, separator, |first|);
    forall j | 0 <= j < |first|
      ensures !Text.OccursAt(s, separator, j)
    {
      assert s[j] == first[j];
    }
  }

  /** A separator of one character splits a joined list back into its parts
      when no part holds that character. */
  lemma {:induction false} SplitJoined(parts: seq<string>, separator: string)
    requires |separator| == 1 && parts != []
    requires forall x :: x in parts ==> separator[0] !in x
    ensures Text.Split(Text.Join(parts, separator), separator) == parts
    decreases |parts|
  {
    var s := Text.Join(parts, separator);
    if |parts| == 1 {
      assert separator[0] in separator;
      Text.MissingCharNotContained(s, separator, separator[0]);
      assert Text.IndexFrom(s, separator, 0) == None;
    } else {
      var rest := Text.Join(parts[1..], separator);
      assert s == parts[0] + separator + rest;
      FirstSeparator(parts[0], rest, separator);
      Text.SplitStep(s, separator, |parts[0]|);
      assert s[|parts[0]| + 1..] == rest;
      assert s[..|parts[0]|] == parts[0];
      SplitJoined(parts[1..], separator);
      assert parts == [parts[0]] + parts[1..];
    }
  }

  /** Reading back a list joined with a one-character separator gives the list,
      when its items are already stripped and free of that character. */
  lemma ReadListJoin(items: seq<string>, separator: string)
    requires |separator| == 1
    requires forall x :: x in items ==> separator[0] !in x && Text.Strip(x, Text.Whitespace) == x
    requires !(|items| == 1 && items[0] == "")
    ensures ReadList(Some(Text.Join(items, separator)), separator) == Ok(items)
  {
    if items == [] {
      assert Text.IndexFrom("", separator, 0) == None;
      assert Text.Split("", separator) == [""];
      assert Text.Strip("", Text.Whitespace) == "";
    } else {
      SplitJoined(items, separator);
      var pieces := Text.Split(Text.Join(items, separator), separator);
      var result := seq(|pieces|, i requires 0 <= i < |pieces| => Text.Strip(pieces[i], Text.Whitespace));
      assert result == items;
    }
  }

  /** Reading a list joined with a one-character separator gives its items,
      each stripped of whitespace, when no item holds that character; a
      single item that is blank or empty gives no pieces. */
  lemma ReadListStrips(items: seq<string>, separator: string)
    requires |separator| == 1
    requires forall x :: x in items ==> separator[0] !in x
    ensures !(|items| == 1 && Text.Strip(items[0], Text.Whitespace) == "") ==>
      ReadList(Some(Text.Join(items, separator)), separator)
        == Ok(seq(|items|, i requires 0 <= i < |items| => Text.Strip(items[i], Text.Whitespace)))
    ensures |items| == 1 && Text.Strip(items[0], Text.Whitespace) == "" ==>
      ReadList(Some(Text.Join(items, separator)), separator) == Ok([])
  {
    if items == [] {
      assert Text.IndexFrom("", separator, 0) == None;
      assert Text.Split("", separator) == [""];
      assert Text.Strip("", Text.Whitespace) == "";
    } else {
      SplitJoined(items, separator);
    }
  }

  /** Text that holds no separator and nothing but whitespace gives no
      pieces. */
  lemma ReadListBlank(text: string, separator: string)
    requires separator != ""
    requires !Text.Contains(text, separator)
    requires forall k :: 0 <= k < |text| ==> text[k] in Text.Whitespace
    ensures ReadList(Some(text), separator) == Ok([])
  {
    assert Text.Split(text, separator) == [text];
    Text.StripBlank(text, Text.Whitespace);
  }

  // ---------------------------------------------------------------------------
  // as_bool

  const TrueWords: seq<string> := ["y", "yes", "t", "on", "1", "true"]
  const FalseWords: seq<string> := ["n", "no", "f", "off", "0", "false"]

  /** `as_bool(value)`: None is false, a bool is itself, and a string is read
      case-insensitively from the twelve known words; any other string raises
      ValueError, and a value without `lower()` raises AttributeError. */
  function AsBool(value: Value): (r: Result<bool>)
    ensures r == Ok(true) <==> value == Bool(true) || (value.Str? && Text.Lower(value.s) in TrueWords)
    ensures r == Ok(false) <==> value.Null? || value == Bool(false) || (value.Str? && Text.Lower(value.s) in FalseWords)
    ensures r.Err? ==> r.error == (if value.Str? then ValueError else AttributeError("lower"))
  {
    match value
    case Null => Ok(false)
    case Bool(b) => Ok(b)
    case Str(s) =>
      var word := Text.Lower(s);
      if word in TrueWords then Ok(true)
      else if word in FalseWords then Ok(false)
      else Err(ValueError)
    case _ => Err(AttributeError("lower"))
  }

  /** The text Python prints for a bool reads back as that bool. */
  lemma AsBoolReadsPrinted(b: bool)
    ensures AsBool(Str(PyStr(Bool(b), false))) == Ok(b)
  {
    if b {
      assert Text.Lower("True") == "true";
    } else {
      assert Text.Lower("False") == "false";
    }
  }

  /** Letter case does not matter. */
  lemma AsBoolIgnoresCase(s: string)
    ensures AsBool(Str(s)) == AsBool(Str(Text.Lower(s)))
  {
    Text.LowerIdempotent(s);
  }

  // ---------------------------------------------------------------------------
  // to_list

  /** `to_list(value)`: a list is returned as it is, anything else wrapped. */
  function ToList(value: Value): (r: Value)
    ensures r.List?
    ensures value.List? ==> r == value
    ensures !value.List? ==> r.items == [value]
  {
    if value.List? then value else List([value])
  }

  lemma ToListIdempotent(value: Value)
    ensures ToList(ToList(value)) == ToList(value)
  {
  }

  // ---------------------------------------------------------------------------
  // normalize_options

  /** The characters `key.strip("--<>")` removes. */
  const OptionMarks: set<char> := {'-', '<', '>'}

  /** The primary variant of an option name: `--grafana-url` becomes `grafana-url`. */
  function PrimaryName(key: string): string
  {
    Text.Strip(key, OptionMarks)
  }

  /** The secondary variant: `grafana-url` becomes `grafana_url`. */
  function SecondaryName(key: string): string
  {
    Text.Replace(PrimaryName(key), "-", "_")
  }

  /** The value `normalize_options` leaves under `key`: that of the last option
      whose primary or secondary variant is `key`. */
  function Normalized(options: seq<(string, Value)>, key: string): (r: Option<Value>)
    ensures r.Some? ==> exists i :: 0 <= i < |options|
                          && (key == PrimaryName(options[i].0) || key == SecondaryName(options[i].0))
                          && r.value == options[i].1
  {
    if options == [] then None
    else
      var last := options[|options| - 1];
      if key == PrimaryName(last.0) || key == SecondaryName(last.0) then Some(last.1)
      else
        var init := options[..|options| - 1];
        var r := Normalized(init, key);
        assert forall i :: 0 <= i < |init| ==> init[i] == options[i];
        r
  }

  /** `normalize_options(options)`: every option stored under both variants of its name. */
  method NormalizeOptions(options: seq<(string, Value)>) returns (normalized: seq<(string, Value)>)
    ensures UniqueKeys(normalized)
    ensures forall key :: Lookup(normalized, key) == Normalized(options, key)
  {
    normalized := [];
    var i := 0;
    while i < |options|
      invariant 0 <= i <= |options|
      invariant UniqueKeys(normalized)
      invariant forall key :: Lookup(normalized, key) == Normalized(options[..i], key)
    {
      var (key, value) := options[i];
      var primary := PrimaryName(key);
      StoreUnique(normalized, primary, value);
      normalized := Store(normalized, primary, value);
      var secondary := Text.Replace(primary, "-", "_");
      StoreUnique(normalized, secondary, value);
      normalized := Store(normalized, secondary, value);
      assert options[..i + 1][..i] == options[..i];
      i := i + 1;
    }
    assert options[..i] == options;
  }

  /** An option whose names no later option shares is found under both names. */
  lemma {:induction false} NormalizedBothNames(options: seq<(string, Value)>, i: nat)
    requires i < |options|
    requires forall j :: i < j < |options| ==>
      PrimaryName(options[j].0) != PrimaryName(options[i].0) && SecondaryName(options[j].0) != PrimaryName(options[i].0) &&
      PrimaryName(options[j].0) != SecondaryName(options[i].0) && SecondaryName(options[j].0) != SecondaryName(options[i].0)
    ensures Normalized(options, PrimaryName(options[i].0)) == Some(options[i].1)
    ensures Normalized(options, SecondaryName(options[i].0)) == Some(options[i].1)
    decreases |options|
  {
    if i < |options| - 1 {
      var init := options[..|options| - 1];
      assert init[i] == options[i];
      NormalizedBothNames(init, i);
    }
  }

  // ---------------------------------------------------------------------------
  // format_dict

  /** `f"{s:>width}"`: `s` right-aligned with spaces, never cut. */
  function PadLeft(s: string, width: nat): (r: string)
    ensures |r| == if |s| < width then width else |s|
    ensures Text.EndsWith(r, s)
    ensures forall k :: 0 <= k < |r| - |s| ==> r[k] == ' '
  {
    if |s| < width then seq(width - |s|, _ => ' ') + s else s
  }

  /** One line of `format_dict`: the key right-aligned to 12 columns, then the value. */
  function Entry(key: string, value: Value, munch: bool): string
  {
    " " + PadLeft(key, 12) + ValueText(value, munch)
  }

  /** The value part of a line: a space, `str(value)`, the line end. */
  function ValueText(value: Value, munch: bool): string
  {
    " " + PyStr(value, munch) + "\n"
  }

  /** The lines of all entries, in the dict's order. */
  function Lines(data: seq<(string, Value)>, munch: bool): string
  {
    if data == [] then "" else Entry(data[0].0, data[0].1, munch) + Lines(data[1..], munch)
  }

  lemma {:induction false} LinesAppend(a: seq<(string, Value)>, b: seq<(string, Value)>, munch: bool)
    ensures Lines(a + b, munch) == Lines(a, munch) + Lines(b, munch)
    decreases |a|
  {
    if a == [] {
      assert a + b == b;
    } else {
      assert (a + b)[1..] == a[1..] + b;
      LinesAppend(a[1..], b, munch);
    }
  }

  /** The texts of the items, one after another. */
  function ConcatMap<T>(xs: seq<T>, f: T -> string): string
  {
    if xs == [] then "" else f(xs[0]) + ConcatMap(xs[1..], f)
  }

  lemma ConcatMapFrom<T>(xs: seq<T>, f: T -> string, i: nat)
    requires i < |xs|
    ensures ConcatMap(xs[i..], f) == f(xs[i]) + ConcatMap(xs[i + 1..], f)
  {
    assert xs[i..][1..] == xs[i + 1..];
  }

  /** A loop that concatenates the texts of the items. */
  method ConcatEach<T>(xs: seq<T>, f: T -> string) returns (output: string)
    ensures output == ConcatMap(xs, f)
  {
    output := "";
    var i := 0;
    assert xs[0..] == xs;
    while i < |xs|
      invariant 0 <= i <= |xs|
      invariant output + ConcatMap(xs[i..], f) == ConcatMap(xs, f)
    {
      ConcatMapFrom(xs, f, i);
      output := output + f(xs[i]);
      i := i + 1;
    }
    assert xs[i..] == [];
  }

  lemma {:induction false} LinesConcat(data: seq<(string, Value)>, munch: bool)
    ensures Lines(data, munch) == ConcatMap(data, (e: (string, Value)) => Entry(e.0, e.1, munch))
  {
    if data != [] {
      LinesConcat(data[1..], munch);
    }
  }

  /** The loop of `format_dict(data)`: one line per entry, in order. */
  method ConcatLines(data: seq<(string, Value)>, munch: bool) returns (output: string)
    ensures output == Lines(data, munch)
  {
    output := ConcatEach(data, (e: (string, Value)) => Entry(e.0, e.1, munch));
    LinesConcat(data, munch);
  }

  /** `format_dict(data)`: the entries' lines with the trailing whitespace removed. */
  method FormatDict(data: seq<(string, Value)>, munch: bool) returns (text: string)
    ensures Text.StartsWith(Lines(data, munch), text)
    ensures forall k :: |text| <= k < |Lines(data, munch)| ==> Lines(data, munch)[k] in Text.Whitespace
    ensures text != [] ==> text[|text| - 1] !in Text.Whitespace
  {
    var output := ConcatLines(data, munch);
    text := Text.RStrip(output, Text.Whitespace);
    Text.TrailingCountShape(output, Text.Whitespace);
  }

  /** The lines before an entry, the entry's own line, then the lines after it. */
  lemma LinesAround(data: seq<(string, Value)>, munch: bool, i: nat)
    requires i < |data|
    ensures Lines(data, munch) == Lines(data[..i], munch) + Entry(data[i].0, data[i].1, munch) + Lines(data[i + 1..], munch)
  {
    var pre, post := data[..i], data[i + 1..];
    assert data == (pre + [data[i]]) + post;
    LinesAppend(pre + [data[i]], post, munch);
    LinesAppend(pre, [data[i]], munch);
    LinesSingle(data[i], munch);
  }

  /** One entry, one line. */
  lemma LinesSingle(entry: (string, Value), munch: bool)
    ensures Lines([entry], munch) == Entry(entry.0, entry.1, munch)
  {
    assert [entry][1..] == [];
  }

  /** Whatever ends in a visible character survives stripping the trailing whitespace. */
  lemma KeptBeforeTrailing(all: string, text: string, pre: string, mid: string, post: string)
    requires all == pre + mid + post && mid != [] && mid[|mid| - 1] !in Text.Whitespace
    requires Text.StartsWith(all, text)
    requires forall k :: |text| <= k < |all| ==> all[k] in Text.Whitespace
    ensures Text.Contains(text, mid)
  {
    var p := |pre| + |mid|;
    assert all[p - 1] == mid[|mid| - 1];
    assert |text| >= p;
    assert text[|pre|..p] == all[|pre|..p] == mid;
    assert Text.OccursAt(text, mid, |pre|);
  }

  lemma Regroup(a: string, b: string, c: string, d: string, e: string)
    ensures a + (b + c + d) + e == (a + b) + c + (d + e)
  {
  }

  /** Every key that ends in a visible character is printed, right-aligned. */
  lemma FormatDictShowsKey(data: seq<(string, Value)>, munch: bool, i: nat, text: string)
    requires i < |data| && data[i].0 != [] && data[i].0[|data[i].0| - 1] !in Text.Whitespace
    requires Text.StartsWith(Lines(data, munch), text)
    requires forall k :: |text| <= k < |Lines(data, munch)| ==> Lines(data, munch)[k] in Text.Whitespace
    ensures Text.Contains(text, PadLeft(data[i].0, 12))
  {
    var key := data[i].0;
    var pad := PadLeft(key, 12);
    var before, after := Lines(data[..i], munch), Lines(data[i + 1..], munch);
    var tail := ValueText(data[i].1, munch);
    LinesAround(data, munch, i);
    Regroup(before, " ", pad, tail, after);
    var pre, post := before + " ", tail + after;
    assert pad[|pad| - 1] == key[|key| - 1];
    KeptBeforeTrailing(Lines(data, munch), text, pre, pad, post);
  }
}
