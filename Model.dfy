/**
 * The data classes of `grafana_wtf/model.py`: the scan state, the
 * accessors of a fetched dashboard, and the compact forms of the two
 * exploration items, with `urljoin` for the links they carry.
 */
module Model {
  import opened Wrappers
  import opened Dict
  import opened Json

  /** The scan state: what has been fetched from the instance so far.
      Every list starts out empty, `admin_stats` as an empty dict. */
  class GrafanaDataModel {
    var adminStats: Value
    var dashboards: seq<Value>
    var dashboardList: seq<Value>
    var datasources: seq<Value>
    var folders: seq<Value>
    var organizations: seq<Value>
    var users: seq<Value>
    var teams: seq<Value>
    var annotations: seq<Value>
    var snapshots: seq<Value>
    var notifications: seq<Value>

    constructor ()
      ensures adminStats == Object([])
      ensures dashboards == [] && dashboardList == [] && datasources == []
      ensures folders == [] && organizations == [] && users == [] && teams == []
      ensures annotations == [] && snapshots == [] && notifications == []
    {
      adminStats := Object([]);
      dashboards, dashboardList, datasources := [], [], [];
      folders, organizations, users, teams := [], [], [], [];
      annotations, snapshots, notifications := [], [], [];
    }
  }

  // ---------------------------------------------------------------------------
  // urljoin

  /** `urllib.parse.urljoin(base, url)` with a string `base`: an empty base gives
      `url` as it is, a false `url` gives the base, a string is resolved against
      the base by `resolve` (the reference resolution of RFC 3986, section 5.2,
      which this model takes as given), and anything else cannot be mixed with
      a string. */
  function UrlJoin(base: string, url: Value, resolve: (string, string) -> string): (r: Result<Value>)
    ensures base == "" ==> r == Ok(url)
    ensures base != "" && !Truthy(url) ==> r == Ok(Str(base))
    ensures base != "" && Truthy(url) ==> (r.Ok? <==> url.Str?)
    ensures base != "" && url.Str? && url.s != "" ==> r == Ok(Str(resolve(base, url.s)))
    ensures r.Err? ==> r.error == TypeError
  {
    if base == "" then Ok(url)
    else if !Truthy(url) then Ok(Str(base))
    else if url.Str? then Ok(Str(resolve(base, url.s)))
    else Err(TypeError)
  }

  // ---------------------------------------------------------------------------
  // DashboardDetails

  /** `d.a.b` on nested Munch objects. */
  function AttrPath(v: Value, outer: string, inner: string): (r: Result<Value>)
    ensures r.Ok? <==> Attr(v, outer).Ok? && Attr(Attr(v, outer).value, inner).Ok?
    ensures r.Ok? ==> r.value == Attr(Attr(v, outer).value, inner).value
  {
    match Attr(v, outer)
    case Ok(x) => Attr(x, inner)
    case Err(e) => Err(e)
  }

  /** `DashboardDetails.panels`: the dashboard's panels, or no panels when it has none. */
  function Panels(details: Value): (r: Result<Value>)
    ensures r.Ok? <==> Attr(details, "dashboard").Ok? && Attr(details, "dashboard").value.Object?
    ensures r.Ok? ==> r.value == match Lookup(Attr(details, "dashboard").value.fields, "panels")
                                 case Some(p) => p
                                 case None => List([])
  {
    match Attr(details, "dashboard")
    case Ok(d) => DictGet(d, "panels", List([]))
    case Err(e) => Err(e)
  }

  /** `dashboard.get(section, {}).get("list", [])`. */
  function SectionList(dashboard: Value, section: string): (r: Result<Value>)
    ensures dashboard.Object? && Lookup(dashboard.fields, section).None? ==> r == Ok(List([]))
    ensures dashboard.Object? && Lookup(dashboard.fields, section).Some? ==>
              r == DictGet(Lookup(dashboard.fields, section).value, "list", List([]))
    ensures !dashboard.Object? ==> r.Err?
  {
    match DictGet(dashboard, section, Object([]))
    case Ok(s) => DictGet(s, "list", List([]))
    case Err(e) => Err(e)
  }

  /** `DashboardDetails.annotations`: the annotation list, or none when the
      dashboard has no annotations or they have no list. */
  function Annotations(details: Value): (r: Result<Value>)
    ensures Attr(details, "dashboard").Err? ==> r == Err(AttributeError("dashboard"))
    ensures Attr(details, "dashboard").Ok? ==> r == SectionList(Attr(details, "dashboard").value, "annotations")
  {
    match Attr(details, "dashboard")
    case Ok(d) => SectionList(d, "annotations")
    case Err(e) => Err(e)
  }

  /** `DashboardDetails.templating`: the template variables, or none. */
  function Templating(details: Value): (r: Result<Value>)
    ensures Attr(details, "dashboard").Err? ==> r == Err(AttributeError("dashboard"))
    ensures Attr(details, "dashboard").Ok? ==> r == SectionList(Attr(details, "dashboard").value, "templating")
  {
    match Attr(details, "dashboard")
    case Ok(d) => SectionList(d, "templating")
    case Err(e) => Err(e)
  }

  /** A dashboard holding neither panels nor annotations nor templating has
      no entries in any of the three lists. */
  lemma DetailsDefaults(details: Value)
    requires Attr(details, "dashboard").Ok? && Attr(details, "dashboard").value.Object?
    requires var fs := Attr(details, "dashboard").value.fields;
             Lookup(fs, "panels").None? && Lookup(fs, "annotations").None? && Lookup(fs, "templating").None?
    ensures Panels(details) == Ok(List([]))
    ensures Annotations(details) == Ok(List([]))
    ensures Templating(details) == Ok(List([]))
  {
  }

  /** Sections present but without a `list` have no entries either. */
  lemma SectionWithoutList(dashboard: Value, section: string)
    requires dashboard.Object? && Lookup(dashboard.fields, section).Some?
    requires var s := Lookup(dashboard.fields, section).value; s.Object? && Lookup(s.fields, "list").None?
    ensures SectionList(dashboard, section) == Ok(List([]))
  {
  }

  // ---------------------------------------------------------------------------
  // Compact forms

  /** `OrderedDict(name=ds.name, type=ds.type, url=ds.url)`. */
  function DatasourceShort(datasource: Value): (r: Result<Value>)
    ensures r.Ok? <==> Attr(datasource, "name").Ok? && Attr(datasource, "type").Ok? && Attr(datasource, "url").Ok?
    ensures r.Ok? ==> r.value == Object([("name", Attr(datasource, "name").value),
                                         ("type", Attr(datasource, "type").value),
                                         ("url", Attr(datasource, "url").value)])
  {
    match Attr(datasource, "name")
    case Err(e) => Err(e)
    case Ok(name) =>
      match Attr(datasource, "type")
      case Err(e) => Err(e)
      case Ok(kind) =>
        match Attr(datasource, "url")
        case Err(e) => Err(e)
        case Ok(url) => Ok(Object([("name", name), ("type", kind), ("url", url)]))
  }

  /** `OrderedDict(title=..., uid=..., path=meta.url, url=urljoin(grafana_url, meta.url))`. */
  function DashboardShort(dashboard: Value, grafanaUrl: string, resolve: (string, string) -> string): (r: Result<Value>)
    ensures r.Ok? ==> AttrPath(dashboard, "dashboard", "title").Ok? && AttrPath(dashboard, "dashboard", "uid").Ok?
                      && AttrPath(dashboard, "meta", "url").Ok?
    ensures r.Ok? ==>
      var path := AttrPath(dashboard, "meta", "url").value;
      UrlJoin(grafanaUrl, path, resolve).Ok? &&
      r.value == Object([("title", AttrPath(dashboard, "dashboard", "title").value),
                         ("uid", AttrPath(dashboard, "dashboard", "uid").value),
                         ("path", path),
                         ("url", UrlJoin(grafanaUrl, path, resolve).value)])
  {
    match AttrPath(dashboard, "dashboard", "title")
    case Err(e) => Err(e)
    case Ok(title) =>
      match AttrPath(dashboard, "dashboard", "uid")
      case Err(e) => Err(e)
      case Ok(uid) =>
        match AttrPath(dashboard, "meta", "url")
        case Err(e) => Err(e)
        case Ok(path) =>
          match UrlJoin(grafanaUrl, path, resolve)
          case Err(e) => Err(e)
          case Ok(url) => Ok(Object([("title", title), ("uid", uid), ("path", path), ("url", url)]))
  }

  /** The summary of each dashboard, in order. */
  function DashboardShorts(dashboards: seq<Value>, grafanaUrl: string, resolve: (string, string) -> string): (rs: seq<Result<Value>>)
    ensures |rs| == |dashboards| && forall i :: 0 <= i < |dashboards| ==> rs[i] == DashboardShort(dashboards[i], grafanaUrl, resolve)
  {
    seq(|dashboards|, i requires 0 <= i < |dashboards| => DashboardShort(dashboards[i], grafanaUrl, resolve))
  }

  /** The summary of each data source, in order. */
  function DatasourceShorts(datasources: seq<Value>): (rs: seq<Result<Value>>)
    ensures |rs| == |datasources| && forall i :: 0 <= i < |datasources| ==> rs[i] == DatasourceShort(datasources[i])
  {
    seq(|datasources|, i requires 0 <= i < |datasources| => DatasourceShort(datasources[i]))
  }

  /** The values of a list of results, in order, when none failed. */
  predicate AllOk(rs: seq<Result<Value>>)
  {
    forall i :: 0 <= i < |rs| ==> rs[i].Ok?
  }

  /** The error of the first failing result. */
  predicate FirstError(rs: seq<Result<Value>>, e: Error)
  {
    exists i :: 0 <= i < |rs| && rs[i] == Err(e) && forall j :: 0 <= j < i ==> rs[j].Ok?
  }

  function Values(rs: seq<Result<Value>>): (vs: seq<Value>)
    requires AllOk(rs)
    ensures |vs| == |rs| && forall i :: 0 <= i < |rs| ==> vs[i] == rs[i].value
  {
    seq(|rs|, i requires 0 <= i < |rs| => rs[i].value)
  }

  /** A compact item: the head entry, then the list under `key` only when it has entries. */
  function Compact(head: string, short: Value, key: string, entries: seq<Value>): (r: Value)
    ensures r.Object? && |r.fields| >= 1 && r.fields[0] == (head, short)
    ensures |r.fields| == (if entries == [] then 1 else 2)
    ensures entries != [] ==> r.fields[1] == (key, List(entries))
  {
    if entries == [] then Object([(head, short)]) else Object([(head, short), (key, List(entries))])
  }

  /** Append one entry to the list under `key`, creating it first: `item.setdefault(key, [])`
      followed by `item[key].append(entry)`. */
  function AppendUnder(item: seq<(string, Value)>, key: string, entry: Value): seq<(string, Value)>
  {
    var found: Option<Value> := Lookup(item, key);
    match found
    case Some(List(xs)) => Store(item, key, List(xs + [entry]))
    case _ => Store(item, key, List([entry]))
  }

  /** Builds the compact form: `short` under `head`, then each of `shorts` appended under `key`. */
  method CollectUnder(head: string, short: Value, key: string, shorts: seq<Result<Value>>)
    returns (item: Result<Value>)
    requires head != key
    ensures item.Ok? <==> AllOk(shorts)
    ensures item.Ok? ==> item.value == Compact(head, short, key, Values(shorts))
    ensures item.Err? ==> FirstError(shorts, item.error)
  {
    var fields := [(head, short)];
    var i := 0;
    while i < |shorts|
      invariant 0 <= i <= |shorts|
      invariant forall j :: 0 <= j < i ==> shorts[j].Ok?
      invariant fields == Compact(head, short, key, Values(shorts[..i])).fields
    {
      match shorts[i]
      case Err(e) =>
        assert forall j :: 0 <= j < i ==> shorts[j].Ok?;
        return Err(e);
      case Ok(entry) =>
        var done := Values(shorts[..i]);
        assert Values(shorts[..i + 1]) == done + [entry];
        assert Compact(head, short, key, done + [entry]).fields == [(head, short), (key, List(done + [entry]))];
        if i == 0 {
          assert done == [] && done + [entry] == [entry];
          assert fields == [(head, short)];
          assert Lookup(fields, key) == None;
          assert fields[1..] == [];
          assert Store(fields, key, List([entry])) == [(head, short)] + Store([], key, List([entry]));
          assert AppendUnder(fields, key, entry) == [(head, short), (key, List([entry]))];
        } else {
          assert fields == [(head, short), (key, List(done))];
          assert Lookup(fields, key) == Some(List(done));
          assert fields[1..] == [(key, List(done))];
          assert Store(fields, key, List(done + [entry])) == [(head, short)] + Store(fields[1..], key, List(done + [entry]));
          assert AppendUnder(fields, key, entry) == [(head, short), (key, List(done + [entry]))];
        }
        fields := AppendUnder(fields, key, entry);
        i := i + 1;
    }
    assert shorts[..i] == shorts;
    item := Ok(Object(fields));
  }

  /** A data source together with the dashboards that use it (`DatasourceExplorationItem`). */
  datatype DatasourceExplorationItem = DatasourceExplorationItem(datasource: Value, usedIn: seq<Value>, grafanaUrl: string)
  {
    /** `format_compact()`: the data source's name, type and url, then, when it is
        used at all, one summary per dashboard in `used_in` order. */
    method FormatCompact(resolve: (string, string) -> string) returns (item: Result<Value>)
      ensures item.Ok? <==> DatasourceShort(datasource).Ok? && AllOk(DashboardShorts(usedIn, grafanaUrl, resolve))
      ensures item.Ok? ==>
        item.value == Compact("datasource", DatasourceShort(datasource).value, "dashboards",
                              Values(DashboardShorts(usedIn, grafanaUrl, resolve)))
      ensures item.Err? ==> DatasourceShort(datasource).Err? || FirstError(DashboardShorts(usedIn, grafanaUrl, resolve), item.error)
    {
      match DatasourceShort(datasource)
      case Err(e) =>
        return Err(e);
      case Ok(dsshort) =>
        item := CollectUnder("datasource", dsshort, "dashboards", DashboardShorts(usedIn, grafanaUrl, resolve));
    }
  }

  /** A dashboard together with the data sources it uses (`DashboardExplorationItem`). */
  datatype DashboardExplorationItem = DashboardExplorationItem(dashboard: Value, datasources: seq<Value>, grafanaUrl: string)
  {
    /** `format_compact()`: the dashboard's title, uid, path and url, then, when it
        uses any, the name, type and url of each data source in order. */
    method FormatCompact(resolve: (string, string) -> string) returns (item: Result<Value>)
      ensures item.Ok? <==> DashboardShort(dashboard, grafanaUrl, resolve).Ok? && AllOk(DatasourceShorts(datasources))
      ensures item.Ok? ==>
        item.value == Compact("dashboard", DashboardShort(dashboard, grafanaUrl, resolve).value, "datasources",
                              Values(DatasourceShorts(datasources)))
      ensures item.Err? ==> DashboardShort(dashboard, grafanaUrl, resolve).Err? || FirstError(DatasourceShorts(datasources), item.error)
    {
      match DashboardShort(dashboard, grafanaUrl, resolve)
      case Err(e) =>
        return Err(e);
      case Ok(dbshort) =>
        item := CollectUnder("dashboard", dbshort, "datasources", DatasourceShorts(datasources));
    }
  }
}
