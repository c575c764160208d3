/**
 * The command line front end: choosing the table format, reading the cache
 * lifetime, finding the Grafana URL, turning an empty search expression into
 * "everything", and the `log` command, which sorts the edit history newest
 * first, keeps the first `--number` entries and renders them as JSON or as a
 * table.
 */
module Commands {
  import opened Wrappers
  import opened Json
  import Text
  import Order
  import Util
  import Core
  import EditHistory

  // ---------------------------------------------------------------------------
  // get_table_format

  /** `get_table_format(output_format)`: for a `tabular` format, the field
      after the first colon, or `psql` when there is no colon. */
  function TableFormat(outputFormat: Option<string>): (r: Option<string>)
    ensures r.Some? <==> outputFormat.Some? && Text.StartsWith(outputFormat.value, "tabular")
  {
    if outputFormat.Some? && Text.StartsWith(outputFormat.value, "tabular") then
      var fields := Text.Split(outputFormat.value, ":");
      Some(if |fields| >= 2 then fields[1] else "psql")
    else None
  }

  /** `tabular:<name>` selects the table format `<name>`. */
  lemma TableFormatNamed(name: string)
    requires ':' !in name
    ensures TableFormat(Some("tabular:" + name)) == Some(name)
  {
    assert Text.Join(["tabular", name], ":") == "tabular:" + name by {
      assert ["tabular", name][1..] == [name];
    }
    Util.SplitJoined(["tabular", name], ":");
  }

  /** A bare `tabular` selects `psql`. */
  lemma TableFormatBare()
    ensures TableFormat(Some("tabular")) == Some("psql")
  {
    Util.SplitJoined(["tabular"], ":");
  }

  /** The table format chosen never holds a colon. */
  lemma TableFormatNoColon(outputFormat: Option<string>)
    ensures TableFormat(outputFormat).Some? ==> ':' !in TableFormat(outputFormat).value
  {
    if TableFormat(outputFormat).Some? {
      var fields := Text.Split(outputFormat.value, ":");
      if |fields| >= 2 {
        Text.SplitPiecesFree(outputFormat.value, ":");
        assert fields[1] in fields;
        var f := fields[1];
        if ':' in f {
          var k :| 0 <= k < |f| && f[k] == ':';
          assert Text.OccursAt(f, ":", k);
        }
      }
    }
  }

  // ---------------------------------------------------------------------------
  // The cache lifetime

  /** The lifetime of cached responses in seconds, `None` for "never
      expire": an integer is taken as it is; otherwise an empty text or a
      prefix of `infinite`, in any case, means forever; anything else raises
      the ValueError of `int()`. */
  function CacheTtl(text: string): (r: Result<Option<int>>)
    ensures r.Err? ==> r == Err(ValueError)
  {
    match Text.ParseInt(text)
    case Some(n) => Ok(Some(n))
    case None =>
      if text == "" || Text.StartsWith("infinite", Text.Lower(text)) then Ok(None)
      else Err(ValueError)
  }

  /** The decimal text of an integer is that many seconds. */
  lemma CacheTtlNumber(i: int)
    ensures CacheTtl(Text.IntToString(i)) == Ok(Some(i))
  {
    Text.IntToStringRoundTrip(i);
  }

  /** The empty text and every prefix of `infinite`, whatever its case, mean forever. */
  lemma CacheTtlForever(text: string)
    requires Text.StartsWith("infinite", Text.Lower(text))
    ensures CacheTtl(text) == Ok(None)
  {
    if text != [] {
      var low := Text.Lower(text);
      assert low == "infinite"[..|text|];
      assert low[0] == 'i';
      assert text[0] == 'i' || text[0] == 'I';
      var last := text[|text| - 1];
      assert low[|text| - 1] in "infinite";
      assert last !in Text.Whitespace;
      assert text[0] !in Text.Whitespace;
      Text.StripKeeps(text, Text.Whitespace);
      assert !Text.IsDigit(text[0]);
    }
  }

  // ---------------------------------------------------------------------------
  // Settings

  /** The message of the usage error raised without a Grafana URL. */
  const NoUrlMessage: string :=
    "No Grafana URL given. Please use \"--grafana-url\" option or environment variable \"GRAFANA_URL\"."

  /** Python's `option or env`: the option unless it is missing or empty. */
  function OptionOr(option: Option<string>, env: Option<string>): (r: Option<string>)
    ensures option.Some? && option.value != "" ==> r == option
    ensures (option.None? || option.value == "") ==> r == env
  {
    if option.Some? && option.value != "" then option else env
  }

  /** What `run` takes from the command line and the environment before it builds the engine. */
  datatype Settings = Settings(grafanaUrl: string, grafanaToken: Option<string>, cacheTtl: Option<int>, concurrency: int)

  /** The settings, checked in the order `run` checks them: the cache
      lifetime, then the presence of a URL, then the concurrency. */
  function Configure(urlOption: Option<string>, tokenOption: Option<string>, urlEnv: Option<string>,
                     tokenEnv: Option<string>, cacheTtl: string, concurrency: string): (r: Result<Settings>)
  {
    var url := OptionOr(urlOption, urlEnv);
    var token := OptionOr(tokenOption, tokenEnv);
    match CacheTtl(cacheTtl)
    case Err(e) => Err(e)
    case Ok(ttl) =>
      if url.None? then Err(UsageError(NoUrlMessage))
      else match Text.ParseInt(concurrency)
        case None => Err(ValueError)
        case Some(n) => Ok(Settings(url.value, token, ttl, n))
  }

  /** Without a URL option and without GRAFANA_URL, `run` stops with the usage
      error, unless the cache lifetime was already rejected. */
  lemma ConfigureWithoutUrl(urlOption: Option<string>, tokenOption: Option<string>, tokenEnv: Option<string>,
                            cacheTtl: string, concurrency: string)
    requires urlOption.None? || urlOption.value == ""
    ensures Configure(urlOption, tokenOption, None, tokenEnv, cacheTtl, concurrency)
            == if CacheTtl(cacheTtl).Err? then Err(ValueError) else Err(UsageError(NoUrlMessage))
  {
  }

  /** A URL given on the command line wins over GRAFANA_URL, and every
      setting is the one read. */
  lemma ConfigureReads(urlOption: Option<string>, tokenOption: Option<string>, urlEnv: Option<string>,
                       tokenEnv: Option<string>, cacheTtl: string, concurrency: string)
    requires Configure(urlOption, tokenOption, urlEnv, tokenEnv, cacheTtl, concurrency).Ok?
    ensures var settings := Configure(urlOption, tokenOption, urlEnv, tokenEnv, cacheTtl, concurrency).value;
            && Some(settings.grafanaUrl) == OptionOr(urlOption, urlEnv)
            && (urlOption.Some? && urlOption.value != "" ==> settings.grafanaUrl == urlOption.value)
            && settings.grafanaToken == OptionOr(tokenOption, tokenEnv)
            && CacheTtl(cacheTtl) == Ok(settings.cacheTtl)
            && Text.ParseInt(concurrency) == Some(settings.concurrency)
  {
  }

  /** Builds the engine for the settings and sets its concurrency. */
  method Start(settings: Settings, remote: Core.Remote) returns (engine: Core.GrafanaSearch)
    ensures fresh(engine)
    ensures engine.grafanaUrl == settings.grafanaUrl && engine.remote == remote
    ensures engine.concurrency == Some(settings.concurrency)
    ensures engine.datasources == [] && engine.dashboardList == [] && engine.dashboards == [] && engine.updates == []
  {
    engine := new Core.GrafanaSearch(settings.grafanaUrl, remote);
    engine.EnableConcurrency(settings.concurrency);
  }

  // ---------------------------------------------------------------------------
  // find

  /** `options.search_expression or None`. */
  function SearchExpression(expression: Option<string>): (r: Option<string>)
    ensures expression.Some? && expression.value != "" ==> r == expression
    ensures expression.None? || expression.value == "" ==> r.None?
  {
    if expression.Some? && expression.value != "" then expression else None
  }

  /** An empty search expression selects every item, each wrapped once, in order. */
  lemma EmptyExpressionSelectsAll(items: seq<Value>)
    ensures var hits := Core.SearchHits(SearchExpression(Some("")), items);
            |hits| == |items| && forall i :: 0 <= i < |items| ==> hits[i] == Core.Hit(None, items[i])
  {
    Core.SearchWithoutExpression(items);
  }

  // ---------------------------------------------------------------------------
  // log

  /** `itemgetter('datetime')(entry)`. A value that is not a string is
      rejected with TypeError. */
  function DatetimeOf(entry: Value): (r: Result<string>)
    ensures r.Ok? <==> entry.Object? && Dict.Lookup(entry.fields, "datetime").Some?
                       && Dict.Lookup(entry.fields, "datetime").value.Str?
  {
    match Subscript(entry, "datetime")
    case Err(e) => Err(e)
    case Ok(d) => if d.Str? then Ok(d.s) else Err(TypeError)
  }

  /** The sort key: the timestamp text (only used once every entry has one). */
  function Datetime(entry: Value): string
  {
    if DatetimeOf(entry).Ok? then DatetimeOf(entry).value else ""
  }

  /** The exception raised while the sort keys are computed, front to back. */
  function SortError(entries: seq<Value>): (r: Option<Error>)
    ensures r.None? <==> forall i :: 0 <= i < |entries| ==> DatetimeOf(entries[i]).Ok?
  {
    if entries == [] then None
    else if DatetimeOf(entries[0]).Err? then Some(DatetimeOf(entries[0]).error)
    else
      var rest := SortError(entries[1..]);
      assert forall i :: 1 <= i < |entries| ==> entries[i] == entries[1..][i - 1];
      rest
  }

  /** The end of the Python slice `xs[:count]` for a list of length `n`. */
  function SliceStop(n: nat, count: int): (stop: nat)
    ensures stop <= n
  {
    if count >= 0 then (if count <= n then count else n)
    else if n + count >= 0 then n + count else 0
  }

  /** The entries `log` shows: sorted by timestamp, newest first, then cut
      to the first `number` entries when a number is given. */
  function LogView(entries: seq<Value>, number: Option<string>): (r: Result<seq<Value>>)
  {
    match SortError(entries)
    case Some(e) => Err(e)
    case None =>
      var sorted := Order.SortDesc(entries, Datetime);
      match number
      case None => Ok(sorted)
      case Some(text) =>
        match Text.ParseInt(text)
        case None => Err(ValueError)
        case Some(count) => Ok(sorted[..SliceStop(|sorted|, count)])
  }

  /** The view is newest first, begins the full sorted history, keeps entries
      with the same timestamp in their original order, and holds exactly
      `number` entries (or all of them when there are fewer). */
  lemma LogViewOrder(entries: seq<Value>, number: Option<string>)
    requires LogView(entries, number).Ok?
    ensures var view := LogView(entries, number).value;
            && Order.SortedDesc(view, Datetime)
            && view <= Order.SortDesc(entries, Datetime)
            && (forall i :: 0 <= i < |entries| ==> DatetimeOf(entries[i]).Ok?)
    ensures forall k :: Order.WithKey(Order.SortDesc(entries, Datetime), Datetime, k) == Order.WithKey(entries, Datetime, k)
    ensures number.None? ==> multiset(LogView(entries, number).value) == multiset(entries)
    ensures number.Some? && Text.ParseInt(number.value).value >= 0 ==>
              |LogView(entries, number).value| == if Text.ParseInt(number.value).value <= |entries|
                                                   then Text.ParseInt(number.value).value else |entries|
  {
    var sorted := Order.SortDesc(entries, Datetime);
    Order.SortDescCorrect(entries, Datetime);
    var view := LogView(entries, number).value;
    assert view == sorted[..|view|];
  }

  /** What `log` prints: the entries as JSON, or a table in the given format. */
  datatype Output = JsonDump(entries: seq<Value>) | Table(tableFormat: string, rows: seq<Value>)

  /** The output for a format: `json`, a `tabular` format (the edit-history
      rows), or a ValueError for any other format. */
  function LogOutput(entries: seq<Value>, format: string): (r: Result<Output>)
    ensures format == "json" ==> r == Ok(JsonDump(entries))
    ensures format != "json" && !Text.StartsWith(format, "tabular") ==> r == Err(ValueError)
  {
    if format == "json" then Ok(JsonDump(entries))
    else if Text.StartsWith(format, "tabular") then
      match EditHistory.Render(entries, format)
      case Err(e) => Err(e)
      case Ok(rows) => Ok(Table(TableFormat(Some(format)).value, rows))
    else Err(ValueError)
  }

  /** A table holds the compacted form of the converted entries, one row per
      entry, in the format after `tabular:`. */
  lemma LogOutputTable(entries: seq<Value>, format: string)
    requires Text.StartsWith(format, "tabular") && LogOutput(entries, format).Ok?
    ensures var out := LogOutput(entries, format).value;
            && out.Table?
            && Some(out.tableFormat) == TableFormat(Some(format))
            && EditHistory.InPlace(entries, EditHistory.ToRow).error.None?
            && Some(out.rows) == ResultValue(Collect(EditHistory.InPlace(entries, EditHistory.ToRow).entries,
                                                                 EditHistory.Compactor(format)))
            && |out.rows| == |entries|
  {
    assert format != "json" by {
      assert format[..7] == "tabular";
    }
    EditHistory.RenderChains(entries, format);
    var converted := EditHistory.InPlace(entries, EditHistory.ToRow).entries;
    CollectRows(converted, EditHistory.Compactor(format));
  }

  /** The value of a result, if any. */
  function ResultValue<T>(r: Result<T>): Option<T>
  {
    if r.Ok? then Some(r.value) else None
  }

  /** The `log` command after the dashboards are scanned: the history of the
      selected dashboards, sorted and cut, then rendered. */
  function LogCommand(history: Result<seq<Value>>, number: Option<string>, format: string): (r: Result<Output>)
    ensures history.Err? ==> r == Err(history.error)
  {
    match history
    case Err(e) => Err(e)
    case Ok(entries) =>
      match LogView(entries, number)
      case Err(e) => Err(e)
      case Ok(view) => LogOutput(view, format)
  }

  /** `grafana-wtf log [<dashboard_uid>] [--number=<count>]`: scans every
      dashboard, then shows the history. */
  method RunLog(engine: Core.GrafanaSearch, uid: Option<string>, number: Option<string>, format: string,
                resolve: (string, string) -> string, schedule: nat -> seq<nat>) returns (r: Result<Output>)
    requires forall n: nat :: Core.IsSchedule(schedule(n), n)
    modifies engine
    ensures engine.remote.listing.Ok? ==> engine.dashboardList == engine.remote.listing.value
    ensures engine.remote.listing.Err? ==> engine.dashboardList == old(engine.dashboardList)
    ensures r == if engine.remote.listing.Ok? && Core.Sequential(engine.concurrency)
                    && Core.FetchAll(engine.remote, engine.dashboardList).error.Some?
                 then Err(Core.FetchAll(engine.remote, engine.dashboardList).error.value)
                 else LogCommand(Core.LogEntries(engine.remote, engine.dashboardList, uid, engine.grafanaUrl, resolve),
                                 number, format)
  {
    var scanned := engine.ScanDashboards(None, schedule);
    if scanned.Err? {
      return Err(scanned.error);
    }
    var history := engine.Log(uid, resolve);
    r := match history
      case Err(e) => Err(e)
      case Ok(entries) =>
        match LogView(entries, number)
        case Err(e) => Err(e)
        case Ok(view) => LogOutput(view, format);
  }
}
