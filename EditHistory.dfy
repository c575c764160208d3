/**
 * The edit-history table: `to_table` rewrites each log entry in place into a
 * table row (a combined `name`, no `folder`, `title` or `version`), and
 * `compact_table` folds each row into two cells, `Dashboard` and `Update`,
 * whose lines are separated by `<br/>` in pipe (Markdown) tables and by a
 * newline otherwise. Python runs the two as generators, one entry at a time.
 */
module EditHistory {
  import opened Wrappers
  import opened Dict
  import opened Json
  import Text
  import Util

  /** The characters `name.strip(' 🤓')` removes from both ends. */
  const NameStrip: set<char> := {' ', '\U{1F913}'}

  /** The separator between a folder and a title. */
  const FolderMark: string := " \U{BB} "

  // ---------------------------------------------------------------------------
  // to_table

  /** The row name: `folder » title` (each part stripped of whitespace) when
      the folder is set, else the title; then stripped of spaces and 🤓.
      `.strip()` on anything but a string raises AttributeError. */
  function RowName(folder: Value, title: Value): (r: Result<string>)
    ensures r.Ok? <==> title.Str? && (Truthy(folder) ==> folder.Str?)
    ensures r.Err? ==> r.error == AttributeError("strip")
  {
    var name := Combined(folder, title);
    if name.Str? then Ok(Text.Strip(name.s, NameStrip))
    else Err(AttributeError("strip"))
  }

  /** The name before the final strip; `Null` stands for the AttributeError. */
  function Combined(folder: Value, title: Value): Value
  {
    if !Truthy(folder) then title
    else if folder.Str? && title.Str? then
      Str(Text.Strip(folder.s, Text.Whitespace) + FolderMark + Text.Strip(title.s, Text.Whitespace))
    else Null
  }

  /** The name is the folder and the title around ` » ` when the folder is
      set, otherwise the title, and it no longer starts or ends with a space
      or 🤓: stripping it again changes nothing. */
  lemma RowNameParts(folder: Value, title: Value)
    requires RowName(folder, title).Ok?
    ensures var name := RowName(folder, title).value;
            && Text.Strip(name, NameStrip) == name
            && (Truthy(folder) ==> name == Text.Strip(Text.Strip(folder.s, Text.Whitespace) + FolderMark
                                                      + Text.Strip(title.s, Text.Whitespace), NameStrip))
            && (!Truthy(folder) ==> name == Text.Strip(title.s, NameStrip))
  {
    Text.StripIdempotent(Combined(folder, title).s, NameStrip);
  }

  /** One entry after `to_table` has been at it: the entry as it is left, and
      the exception raised, if any. The name is stored before the deletions,
      so an entry without `version` is left renamed and half-trimmed. */
  datatype Rewrite = Rewrite(entry: Value, error: Option<Error>)

  /** The entry's dict once the name is stored and folder and title deleted. */
  function Renamed(fields: seq<(string, Value)>, name: string): seq<(string, Value)>
  {
    Remove(Remove(Store(fields, "name", Str(name)), "folder"), "title")
  }

  /** Stores the name, then deletes folder, title and version, in that order. */
  function Trim(fields: seq<(string, Value)>, name: string): Rewrite
  {
    var trimmed := Renamed(fields, name);
    if Lookup(trimmed, "version").Some? then Rewrite(Object(Remove(trimmed, "version")), None)
    else Rewrite(Object(trimmed), Some(KeyError("version")))
  }

  function ToRow(entry: Value): (r: Rewrite)
    ensures r.error.None? ==> r.entry.Object?
  {
    match Subscript(entry, "title")
    case Err(e) => Rewrite(entry, Some(e))
    case Ok(title) =>
      match Subscript(entry, "folder")
      case Err(e) => Rewrite(entry, Some(e))
      case Ok(folder) =>
        match RowName(folder, title)
        case Err(e) => Rewrite(entry, Some(e))
        case Ok(name) =>
          Trim(entry.fields, name)
  }

  /** Storing the name and deleting folder and title keeps every other key. */
  lemma RenamedLookups(fields: seq<(string, Value)>, name: string)
    requires UniqueKeys(fields)
    ensures UniqueKeys(Renamed(fields, name))
    ensures Lookup(Renamed(fields, name), "name") == Some(Str(name))
    ensures Lookup(Renamed(fields, name), "folder").None? && Lookup(Renamed(fields, name), "title").None?
    ensures forall k :: k !in {"name", "folder", "title"} ==> Lookup(Renamed(fields, name), k) == Lookup(fields, k)
  {
    var stored := Store(fields, "name", Str(name));
    StoreUnique(fields, "name", Str(name));
    RemoveUnique(stored, "folder");
    RemoveUnique(Remove(stored, "folder"), "title");
  }

  /** A completed trim leaves the name and every key but folder, title and version. */
  lemma TrimLookups(fields: seq<(string, Value)>, name: string)
    requires UniqueKeys(fields) && Trim(fields, name).error.None?
    ensures var row := Trim(fields, name).entry;
            && row.Object? && UniqueKeys(row.fields)
            && Lookup(row.fields, "name") == Some(Str(name))
            && Lookup(row.fields, "folder").None? && Lookup(row.fields, "title").None? && Lookup(row.fields, "version").None?
            && forall k :: k !in {"name", "folder", "title", "version"} ==> Lookup(row.fields, k) == Lookup(fields, k)
  {
    RenamedLookups(fields, name);
    RemoveUnique(Renamed(fields, name), "version");
  }

  /** A converted entry holds the combined name, no folder, title or version,
      and every other key with its old value; it is still a dict. */
  lemma ToRowRewrites(entry: Value)
    requires entry.Object? && UniqueKeys(entry.fields) && ToRow(entry).error.None?
    ensures var row := ToRow(entry).entry;
            && row.Object? && UniqueKeys(row.fields)
            && Lookup(row.fields, "name")
               == Some(Str(RowName(Lookup(entry.fields, "folder").value, Lookup(entry.fields, "title").value).value))
            && Lookup(row.fields, "folder").None? && Lookup(row.fields, "title").None? && Lookup(row.fields, "version").None?
            && forall k :: k !in {"name", "folder", "title", "version"} ==> Lookup(row.fields, k) == Lookup(entry.fields, k)
  {
    var name := RowName(Lookup(entry.fields, "folder").value, Lookup(entry.fields, "title").value).value;
    assert ToRow(entry) == Trim(entry.fields, name);
    TrimLookups(entry.fields, name);
  }

  /** The entry is converted exactly when it is a dict holding title, folder
      and version, with string parts where they are stripped. */
  lemma ToRowSucceeds(entry: Value)
    ensures ToRow(entry).error.None? <==>
              entry.Object? && Lookup(entry.fields, "title").Some? && Lookup(entry.fields, "folder").Some?
              && Lookup(entry.fields, "version").Some?
              && RowName(Lookup(entry.fields, "folder").value, Lookup(entry.fields, "title").value).Ok?
  {
    if entry.Object? && Lookup(entry.fields, "title").Some? && Lookup(entry.fields, "folder").Some? {
      var name := RowName(Lookup(entry.fields, "folder").value, Lookup(entry.fields, "title").value);
      if name.Ok? {
        TrimSucceeds(entry.fields, name.value);
      }
    }
  }

  /** The trim completes exactly when there is a version to delete. */
  lemma TrimSucceeds(fields: seq<(string, Value)>, name: string)
    ensures Trim(fields, name).error.None? <==> Lookup(fields, "version").Some?
  {
    RenamedKeeps(fields, name, "version");
  }

  /** Storing the name and deleting folder and title leaves the other keys alone. */
  lemma RenamedKeeps(fields: seq<(string, Value)>, name: string, k: string)
    requires k != "name" && k != "folder" && k != "title"
    ensures Lookup(Renamed(fields, name), k) == Lookup(fields, k)
  {
  }

  /** A generator that rewrites the entries in place one at a time: the
      entries as they are left and the first exception. An entry that raises
      is left as the step left it, and the entries after it are untouched. */
  datatype Pass = Pass(entries: seq<Value>, error: Option<Error>)

  function InPlace(entries: seq<Value>, step: Value -> Rewrite): (p: Pass)
    ensures |p.entries| == |entries|
  {
    if entries == [] then Pass([], None)
    else
      var init := entries[..|entries| - 1];
      var last := entries[|entries| - 1];
      var before := InPlace(init, step);
      if before.error.Some? then Pass(before.entries + [last], before.error)
      else
        var r := step(last);
        Pass(before.entries + [r.entry], r.error)
  }

  /** One more entry after a pass that has not raised gets its step. */
  lemma InPlaceAppend(entries: seq<Value>, last: Value, step: Value -> Rewrite)
    requires InPlace(entries, step).error.None?
    ensures InPlace(entries + [last], step)
            == Pass(InPlace(entries, step).entries + [step(last).entry], step(last).error)
  {
    assert (entries + [last])[..|entries|] == entries;
  }

  /** Once an entry fails, the rest of the list is left as it was. */
  lemma {:induction false} InPlaceStops(entries: seq<Value>, k: nat, step: Value -> Rewrite)
    requires k <= |entries| && InPlace(entries[..k], step).error.Some?
    ensures InPlace(entries, step) == Pass(InPlace(entries[..k], step).entries + entries[k..], InPlace(entries[..k], step).error)
    decreases |entries| - k
  {
    if k == |entries| {
      assert entries[..k] == entries;
      assert entries[k..] == [];
      assert InPlace(entries[..k], step).entries + [] == InPlace(entries[..k], step).entries;
    } else {
      var n := |entries|;
      assert entries[..n - 1][..k] == entries[..k];
      InPlaceStops(entries[..n - 1], k, step);
      assert entries[..n - 1][k..] + [entries[n - 1]] == entries[k..];
    }
  }

  /** The pass completes exactly when every entry's step does, and then each
      entry is what its step made of it. */
  lemma {:induction false} InPlaceEntries(entries: seq<Value>, step: Value -> Rewrite)
    ensures InPlace(entries, step).error.None? <==> forall k :: 0 <= k < |entries| ==> step(entries[k]).error.None?
    ensures InPlace(entries, step).error.None? ==>
              forall k :: 0 <= k < |entries| ==> InPlace(entries, step).entries[k] == step(entries[k]).entry
    decreases |entries|
  {
    if entries != [] {
      var init := entries[..|entries| - 1];
      InPlaceEntries(init, step);
      assert forall k :: 0 <= k < |init| ==> init[k] == entries[k];
      if InPlace(init, step).error.Some? {
        var k :| 0 <= k < |init| && step(init[k]).error.Some?;
        assert step(entries[k]).error.Some?;
      }
    }
  }

  /** Overwriting the first entry after a prefix. */
  lemma ReplaceAfter(done: seq<Value>, rest: seq<Value>, e: Value)
    requires rest != []
    ensures (done + rest)[|done| := e] == done + [e] + rest[1..]
  {
  }

  /** Applies `step` to each entry in place, front to back, until a step
      reports an exception. */
  method RewriteEach(entries: array<Value>, step: Value -> Rewrite) returns (error: Option<Error>)
    modifies entries
    ensures entries[..] == InPlace(old(entries[..]), step).entries
    ensures error == InPlace(old(entries[..]), step).error
  {
    ghost var original := entries[..];
    var i := 0;
    while i < entries.Length
      invariant 0 <= i <= entries.Length
      invariant InPlace(original[..i], step).error.None?
      invariant entries[..] == InPlace(original[..i], step).entries + original[i..]
    {
      var row := step(entries[i]);
      ghost var done := InPlace(original[..i], step).entries;
      assert entries[i] == original[i];
      assert original[..i + 1] == original[..i] + [original[i]];
      InPlaceAppend(original[..i], original[i], step);
      ReplaceAfter(done, original[i..], row.entry);
      assert original[i..][1..] == original[i + 1..];
      entries[i] := row.entry;
      if row.error.Some? {
        InPlaceStops(original, i + 1, step);
        return row.error;
      }
      i := i + 1;
    }
    assert original[..i] == original;
    assert original[i..] == [];
    error := None;
  }

  /** `to_table(entries)` driven to the end: rewrites the entries in place,
      front to back, and reports the exception that stopped it. */
  method ToTable(entries: array<Value>) returns (error: Option<Error>)
    modifies entries
    ensures entries[..] == InPlace(old(entries[..]), ToRow).entries
    ensures error == InPlace(old(entries[..]), ToRow).error
  {
    error := RewriteEach(entries, ToRow);
  }

  // ---------------------------------------------------------------------------
  // compact_table

  /** `entry['message'].capitalize() or 'n/a'`. */
  function Notes(message: string): (r: string)
    ensures message == "" ==> r == "n/a"
    ensures message != "" ==> r == Text.Capitalize(message) && r != ""
  {
    var capitalized := Text.Capitalize(message);
    if capitalized == "" then "n/a" else capitalized
  }

  /** Pipe tables are Markdown: links and `<br/>`; all others get plain lines. */
  function Separator(format: string): (sep: string)
    ensures Text.EndsWith(format, "pipe") ==> sep == "<br/>"
    ensures !Text.EndsWith(format, "pipe") ==> sep == "\n"
  {
    if Text.EndsWith(format, "pipe") then "<br/>" else "\n"
  }

  /** The reference to the dashboard: a Markdown link, or a name and a URL line. */
  function Link(name: Value, url: Value, format: string): string
  {
    if Text.EndsWith(format, "pipe") then "[" + PyStr(name, false) + "](" + PyStr(url, false) + ")"
    else "Name: " + PyStr(name, false) + "\nURL: " + PyStr(url, false)
  }

  /** The `Dashboard` cell: the notes, then the link. */
  function DashboardCell(name: Value, url: Value, message: string, format: string): string
  {
    Text.Join(["Notes: " + Notes(message), Link(name, url, format)], Separator(format))
  }

  /** The `Update` cell: who changed the dashboard, then when. */
  function UpdateCell(user: Value, datetime: Value, format: string): string
  {
    Text.Join(["User: " + PyStr(user, false), "Date: " + PyStr(datetime, false)], Separator(format))
  }

  /** One compacted row: `Dashboard` holds the notes and the link, `Update` the
      user and the date. Its values are read in the order name, url, message,
      user, datetime; a message that is not a string has no `capitalize`. */
  function CompactRow(entry: Value, format: string): (r: Result<Value>)
    ensures r.Ok? <==>
              entry.Object? && Lookup(entry.fields, "name").Some? && Lookup(entry.fields, "url").Some?
              && Lookup(entry.fields, "message").Some? && Lookup(entry.fields, "message").value.Str?
              && Lookup(entry.fields, "user").Some? && Lookup(entry.fields, "datetime").Some?
    ensures !entry.Object? ==> r == Err(TypeError)
    ensures r.Ok? ==> r.value.Object? && Keys(r.value.fields) == ["Dashboard", "Update"]
  {
    match Subscript(entry, "name")
    case Err(e) => Err(e)
    case Ok(name) =>
      match Subscript(entry, "url")
      case Err(e) => Err(e)
      case Ok(url) =>
        match Subscript(entry, "message")
        case Err(e) => Err(e)
        case Ok(message) =>
          if !message.Str? then Err(AttributeError("capitalize"))
          else match Subscript(entry, "user")
            case Err(e) => Err(e)
            case Ok(user) =>
              match Subscript(entry, "datetime")
              case Err(e) => Err(e)
              case Ok(datetime) =>
                Ok(Object([("Dashboard", Str(DashboardCell(name, url, message.s, format))),
                           ("Update", Str(UpdateCell(user, datetime, format)))]))
  }

  /** A value whose text spans one line. */
  predicate OneLine(v: Value)
  {
    '\n' !in PyStr(v, false)
  }

  /** Two cell lines joined by a separator. */
  lemma JoinPair(first: string, second: string, sep: string)
    ensures Text.Join([first, second], sep) == first + sep + second
  {
    assert [first, second][1..] == [second];
  }

  /** The pipe form of the `Dashboard` cell, on texts. */
  lemma PipeLink(notes: string, name: string, url: string)
    ensures Text.Join([notes, "[" + name + "](" + url + ")"], "<br/>") == notes + "<br/>[" + name + "](" + url + ")"
  {
    JoinPair(notes, "[" + name + "](" + url + ")", "<br/>");
  }

  /** In a pipe table the `Dashboard` cell is the notes and the Markdown link around `<br/>`. */
  lemma DashboardCellPipe(name: Value, url: Value, message: string, format: string)
    requires Text.EndsWith(format, "pipe")
    ensures DashboardCell(name, url, message, format)
            == "Notes: " + Notes(message) + "<br/>[" + PyStr(name, false) + "](" + PyStr(url, false) + ")"
  {
    PipeLink("Notes: " + Notes(message), PyStr(name, false), PyStr(url, false));
  }

  /** In a pipe table the `Update` cell is the user and the date around `<br/>`. */
  lemma UpdateCellPipe(user: Value, datetime: Value, format: string)
    requires Text.EndsWith(format, "pipe")
    ensures UpdateCell(user, datetime, format)
            == "User: " + PyStr(user, false) + "<br/>Date: " + PyStr(datetime, false)
  {
    var who := "User: " + PyStr(user, false);
    JoinPair(who, "Date: " + PyStr(datetime, false), "<br/>");
  }

  /** Three lines joined by newlines are the first, a newline, and the other two joined. */
  lemma NewlineLink(notes: string, first: string, second: string)
    ensures Text.Join([notes, first + "\n" + second], "\n") == Text.Join([notes, first, second], "\n")
  {
    JoinPair(notes, first + "\n" + second, "\n");
    JoinPair(first, second, "\n");
    assert [notes, first, second][1..] == [first, second];
  }

  /** The plain form of the link: the name line, a newline, the URL line. */
  lemma LineLink(name: string, url: string)
    ensures "Name: " + name + "\nURL: " + url == ("Name: " + name) + "\n" + ("URL: " + url)
  {
  }

  /** Outside pipe tables the `Dashboard` cell reads back, line by line, as
      the notes, the name and the URL. */
  lemma DashboardCellLines(name: Value, url: Value, message: string, format: string)
    requires !Text.EndsWith(format, "pipe") && OneLine(name) && OneLine(url) && '\n' !in message
    ensures Text.Split(DashboardCell(name, url, message, format), "\n")
            == ["Notes: " + Notes(message), "Name: " + PyStr(name, false), "URL: " + PyStr(url, false)]
  {
    var notes := "Notes: " + Notes(message);
    NotesOneLine(message);
    var first := "Name: " + PyStr(name, false);
    var second := "URL: " + PyStr(url, false);
    assert '\n' !in notes && '\n' !in first && '\n' !in second;
    LineLink(PyStr(name, false), PyStr(url, false));
    assert Link(name, url, format) == first + "\n" + second;
    NewlineLink(notes, first, second);
    Util.SplitJoined([notes, first, second], "\n");
  }

  /** Outside pipe tables the `Update` cell reads back as the user and the date. */
  lemma UpdateCellLines(user: Value, datetime: Value, format: string)
    requires !Text.EndsWith(format, "pipe") && OneLine(user) && OneLine(datetime)
    ensures Text.Split(UpdateCell(user, datetime, format), "\n")
            == ["User: " + PyStr(user, false), "Date: " + PyStr(datetime, false)]
  {
    Util.SplitJoined(["User: " + PyStr(user, false), "Date: " + PyStr(datetime, false)], "\n");
  }

  /** In a pipe table a compacted row holds the notes and the Markdown link,
      and the user and the date, each pair joined by `<br/>`. */
  lemma CompactRowPipe(entry: Value, format: string)
    requires Text.EndsWith(format, "pipe") && CompactRow(entry, format).Ok?
    ensures var fields := entry.fields;
            var name := PyStr(Lookup(fields, "name").value, false);
            var url := PyStr(Lookup(fields, "url").value, false);
            CompactRow(entry, format).value.fields ==
              [("Dashboard", Str("Notes: " + Notes(Lookup(fields, "message").value.s) + "<br/>[" + name + "](" + url + ")")),
               ("Update", Str("User: " + PyStr(Lookup(fields, "user").value, false) + "<br/>Date: "
                              + PyStr(Lookup(fields, "datetime").value, false)))]
  {
    var fields := entry.fields;
    DashboardCellPipe(Lookup(fields, "name").value, Lookup(fields, "url").value, Lookup(fields, "message").value.s, format);
    UpdateCellPipe(Lookup(fields, "user").value, Lookup(fields, "datetime").value, format);
  }

  /** Outside pipe tables each cell of a compacted row reads back, line by
      line, as the notes, the name and the URL, and as the user and the
      date, when none of the values spans several lines. */
  lemma CompactRowLines(entry: Value, format: string)
    requires !Text.EndsWith(format, "pipe") && CompactRow(entry, format).Ok?
    requires var fields := entry.fields;
             OneLine(Lookup(fields, "name").value) && OneLine(Lookup(fields, "url").value)
             && OneLine(Lookup(fields, "message").value)
             && OneLine(Lookup(fields, "user").value) && OneLine(Lookup(fields, "datetime").value)
    ensures var fields := entry.fields;
            var cells := CompactRow(entry, format).value.fields;
            && Text.Split(cells[0].1.s, "\n")
               == ["Notes: " + Notes(Lookup(fields, "message").value.s),
                   "Name: " + PyStr(Lookup(fields, "name").value, false),
                   "URL: " + PyStr(Lookup(fields, "url").value, false)]
            && Text.Split(cells[1].1.s, "\n")
               == ["User: " + PyStr(Lookup(fields, "user").value, false),
                   "Date: " + PyStr(Lookup(fields, "datetime").value, false)]
  {
    var fields := entry.fields;
    DashboardCellLines(Lookup(fields, "name").value, Lookup(fields, "url").value, Lookup(fields, "message").value.s, format);
    UpdateCellLines(Lookup(fields, "user").value, Lookup(fields, "datetime").value, format);
  }

  /** Capitalising changes no newline, so one-line messages give one-line notes. */
  lemma NotesOneLine(message: string)
    requires '\n' !in message
    ensures '\n' !in Notes(message)
  {
    if message != "" {
      var lowered := Text.Lower(message[1..]);
      forall k | 0 <= k < |lowered| ensures lowered[k] != '\n' {
        assert message[1..][k] == message[k + 1];
      }
      assert message[0] in message;
    }
  }

  /** `CompactRow` for one output format, as a function of the entry. */
  function Compactor(format: string): (row: Value -> Result<Value>)
    ensures forall entry :: row(entry) == CompactRow(entry, format)
  {
    entry => CompactRow(entry, format)
  }

  /** `compact_table(entries, format)` collected into a list. */
  method CompactTable(entries: seq<Value>, format: string) returns (r: Result<seq<Value>>)
    ensures r == Collect(entries, Compactor(format))
  {
    var rows: seq<Value> := [];
    var i := 0;
    while i < |entries|
      invariant 0 <= i <= |entries|
      invariant Collect(entries[..i], Compactor(format)) == Ok(rows)
    {
      assert entries[..i + 1][..i] == entries[..i];
      var row := CompactRow(entries[i], format);
      if row.Err? {
        CollectStops(entries, i + 1, Compactor(format), row.error);
        return Err(row.error);
      }
      rows := rows + [row.value];
      i := i + 1;
    }
    assert entries[..i] == entries;
    r := Ok(rows);
  }

  // ---------------------------------------------------------------------------
  // The two generators chained

  /** One generator feeding another, consumed in full: each entry is
      rewritten by `step` and then turned into a row before the next one is
      read, so the first exception in that order is the one raised. */
  function Chain(entries: seq<Value>, step: Value -> Rewrite, row: Value -> Result<Value>): (r: Result<seq<Value>>)
  {
    if entries == [] then Ok([])
    else match Chain(entries[..|entries| - 1], step, row)
      case Err(e) => Err(e)
      case Ok(rows) =>
        var rewritten := step(entries[|entries| - 1]);
        if rewritten.error.Some? then Err(rewritten.error.value)
        else match row(rewritten.entry)
          case Err(e) => Err(e)
          case Ok(value) => Ok(rows + [value])
  }

  /** Chained, the generators give what the second gives on the list the
      first leaves behind. */
  lemma {:induction false} ChainSplits(entries: seq<Value>, step: Value -> Rewrite, row: Value -> Result<Value>)
    ensures Chain(entries, step, row).Ok? ==>
              InPlace(entries, step).error.None?
              && Chain(entries, step, row) == Collect(InPlace(entries, step).entries, row)
    decreases |entries|
  {
    if entries != [] && Chain(entries, step, row).Ok? {
      var init := entries[..|entries| - 1];
      ChainSplits(init, step, row);
      var rows := InPlace(entries, step).entries;
      assert rows[..|rows| - 1] == InPlace(init, step).entries;
    }
  }

  /** `compact_table(to_table(entries), format)` consumed in full. */
  function Render(entries: seq<Value>, format: string): (r: Result<seq<Value>>)
  {
    Chain(entries, ToRow, Compactor(format))
  }

  /** The rendered table is the compacted form of the converted entries. */
  lemma RenderChains(entries: seq<Value>, format: string)
    ensures Render(entries, format).Ok? ==>
              InPlace(entries, ToRow).error.None?
              && Render(entries, format) == Collect(InPlace(entries, ToRow).entries, Compactor(format))
  {
    ChainSplits(entries, ToRow, Compactor(format));
  }
}
