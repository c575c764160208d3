/**
 * The cross-reference `Indexer` of `grafana_wtf/core.py`: dashboards by
 * uid, data sources by name, the data source names each dashboard uses and,
 * inverted, the dashboards using each data source name.
 */
module Indexing {
  import opened Wrappers
  import opened Dict
  import opened Json
  import Order

  // ---------------------------------------------------------------------------
  // collect_datasource_names

  /** `item.datasource` for every item, failing at the first item without one. */
  function DatasourceAttrs(items: seq<Value>): (r: Result<seq<Value>>)
    ensures r.Ok? <==> forall i :: 0 <= i < |items| ==> Attr(items[i], "datasource").Ok?
    ensures r.Ok? ==> |r.value| == |items| && forall i :: 0 <= i < |items| ==> r.value[i] == Attr(items[i], "datasource").value
    ensures r.Err? ==> r.error == AttributeError("datasource")
  {
    if items == [] then Ok([])
    else match Attr(items[0], "datasource")
      case Err(e) => Err(e)
      case Ok(v) =>
        match DatasourceAttrs(items[1..])
        case Err(e) => Err(e)
        case Ok(vs) => Ok([v] + vs)
  }

  /** The truthy values, which must be names; a truthy value of another type fails. */
  function TruthyNames(values: seq<Value>): (r: Result<seq<string>>)
    ensures r.Ok? <==> forall i :: 0 <= i < |values| ==> Truthy(values[i]) ==> values[i].Str?
    ensures r.Ok? ==> forall n :: n in r.value <==> n != "" && Str(n) in values
    ensures r.Err? ==> r.error == TypeError
  {
    if values == [] then Ok([])
    else
      var v := values[0];
      assert values == [v] + values[1..];
      if Truthy(v) && !v.Str? then Err(TypeError)
      else match TruthyNames(values[1..])
        case Err(e) => Err(e)
        case Ok(ns) => Ok(if Truthy(v) then [v.s] + ns else ns)
  }

  /** `collect_datasource_names(root)`: the distinct truthy `datasource` values
      of the items of `root`, each once. The source builds a set, so the order
      it returns them in is not specified; the model lists them in ascending
      order. */
  function CollectDatasourceNames(root: Value): (r: Result<seq<string>>)
    ensures PyIter(root).Err? ==> r == Err(TypeError)
    ensures r.Ok? ==> PyIter(root).Ok?
    ensures r.Ok? ==> forall n :: n in r.value <==> n != "" && UsedIn(root, n)
    ensures r.Ok? ==> forall i, j :: 0 <= i < j < |r.value| ==> r.value[i] != r.value[j]
    ensures r.Ok? ==> Order.StrictlySorted(r.value)
  {
    match PyIter(root)
    case Err(e) => Err(e)
    case Ok(items) =>
      match DatasourceAttrs(items)
      case Err(e) => Err(e)
      case Ok(values) =>
        match TruthyNames(values)
        case Err(e) => Err(e)
        case Ok(names) =>
          assert forall n :: Str(n) in values <==> exists i :: 0 <= i < |items| && Attr(items[i], "datasource") == Ok(Str(n));
          var distinct := Order.SortedDistinct(names);
          Order.SortedDistinctElements(distinct);
          Ok(distinct)
  }

  /** Two panels that use the same data source give its name once. */
  lemma CollectRepeatedName()
    ensures var panel := Object([("datasource", Str("A"))]);
            CollectDatasourceNames(List([panel, panel])) == Ok(["A"])
  {
    var panel := Object([("datasource", Str("A"))]);
    var root := List([panel, panel]);
    assert Lookup(panel.fields, "datasource") == Some(Str("A"));
    var r := CollectDatasourceNames(root);
    assert UsedIn(root, "A");
    assert r.Ok? && forall n :: n in r.value ==> n == "A";
    Order.StrictlySortedUnique(r.value, ["A"]);
  }

  // ---------------------------------------------------------------------------
  // index_dashboards, one dashboard at a time

  /** What indexing one dashboard yields: a folder is skipped, any other
      dashboard gives its uid and the names of the data sources it uses. */
  datatype Indexed = Folder | Indexed(uid: string, names: seq<string>)

  /** The indexing step for one dashboard of `index_dashboards`. Dashboard uids
      are strings; another uid is reported as a TypeError. */
  function IndexDashboard(dashboard: Value): (r: Result<Indexed>)
    ensures r.Ok? && r.value.Indexed? ==> Order.StrictlySorted(r.value.names)
  {
    match Attr(dashboard, "meta")
    case Err(e) => Err(e)
    case Ok(meta) =>
      match Attr(meta, "isFolder")
      case Err(e) => Err(e)
      case Ok(isFolder) =>
        if Truthy(isFolder) then Ok(Folder)
        else match Attr(dashboard, "dashboard")
          case Err(e) => Err(e)
          case Ok(body) =>
            match Attr(body, "uid")
            case Err(e) => Err(e)
            case Ok(uid) =>
              if !uid.Str? then Err(TypeError)
              else match Attr(body, "panels")
                case Err(e) => Err(e)
                case Ok(panels) =>
                  match CollectDatasourceNames(panels)
                  case Err(e) => Err(e)
                  case Ok(dsPanels) =>
                    match SectionList(body, "annotations")
                    case Err(e) => Err(e)
                    case Ok(annotations) =>
                      match CollectDatasourceNames(annotations)
                      case Err(e) => Err(e)
                      case Ok(dsAnnotations) =>
                        match SectionList(body, "templating")
                        case Err(e) => Err(e)
                        case Ok(templating) =>
                          match CollectDatasourceNames(templating)
                          case Err(e) => Err(e)
                          case Ok(dsTemplating) =>
                            Ok(Indexed(uid.s, Order.SortedDistinct(dsPanels + dsAnnotations + dsTemplating)))
  }

  /** `dashboard.<section>.list` on Munch objects. */
  function SectionList(body: Value, section: string): Result<Value>
  {
    match Attr(body, section)
    case Err(e) => Err(e)
    case Ok(s) => Attr(s, "list")
  }

  /** A data source name is used by a dashboard when an item directly inside its
      panels, its annotation list or its templating list names it. */
  predicate UsesDatasource(body: Value, name: string)
  {
    name != "" &&
    ((Attr(body, "panels").Ok? && UsedIn(Attr(body, "panels").value, name)) ||
     (SectionList(body, "annotations").Ok? && UsedIn(SectionList(body, "annotations").value, name)) ||
     (SectionList(body, "templating").Ok? && UsedIn(SectionList(body, "templating").value, name)))
  }

  predicate UsedIn(root: Value, name: string)
  {
    PyIter(root).Ok? && exists i :: 0 <= i < |PyIter(root).value| && Attr(PyIter(root).value[i], "datasource") == Ok(Str(name))
  }

  /** An indexed dashboard's entry holds exactly the names it uses, in ascending
      order and each once. */
  lemma IndexedNamesUsed(dashboard: Value)
    requires IndexDashboard(dashboard).Ok? && IndexDashboard(dashboard).value.Indexed?
    ensures var body := Attr(dashboard, "dashboard").value;
            var entry := IndexDashboard(dashboard).value;
            Order.StrictlySorted(entry.names) && Attr(body, "uid") == Ok(Str(entry.uid)) &&
            forall n :: n in entry.names <==> UsesDatasource(body, n)
  {
  }

  /** A folder is never indexed. */
  lemma FolderSkipped(dashboard: Value)
    requires Attr(dashboard, "meta").Ok? && Attr(Attr(dashboard, "meta").value, "isFolder").Ok?
    requires Truthy(Attr(Attr(dashboard, "meta").value, "isFolder").value)
    ensures IndexDashboard(dashboard) == Ok(Folder)
  {
  }

  // ---------------------------------------------------------------------------
  // What the indexes hold

  /** The last dashboard indexed under `uid`; later ones overwrite earlier ones. */
  function LastWithUid(dashboards: seq<Value>, uid: string): (r: Option<Value>)
    ensures r.Some? ==> r.value in dashboards && IndexDashboard(r.value).Ok?
                        && IndexDashboard(r.value).value.Indexed? && IndexDashboard(r.value).value.uid == uid
  {
    if dashboards == [] then None
    else
      var last := dashboards[|dashboards| - 1];
      var step := IndexDashboard(last);
      if step.Ok? && step.value.Indexed? && step.value.uid == uid then Some(last)
      else LastWithUid(dashboards[..|dashboards| - 1], uid)
  }

  /** The last dashboard under `uid` among one more dashboard. */
  lemma LastWithUidStep(dashboards: seq<Value>, i: nat, uid: string)
    requires i < |dashboards|
    ensures var step := IndexDashboard(dashboards[i]);
            LastWithUid(dashboards[..i + 1], uid)
            == if step.Ok? && step.value.Indexed? && step.value.uid == uid then Some(dashboards[i])
               else LastWithUid(dashboards[..i], uid)
  {
    assert dashboards[..i + 1][..i] == dashboards[..i];
  }

  /** A folder changes no uid's last dashboard. */
  lemma FolderStep(dashboards: seq<Value>, i: nat)
    requires i < |dashboards| && IndexDashboard(dashboards[i]) == Ok(Folder)
    ensures forall uid :: LastWithUid(dashboards[..i + 1], uid) == LastWithUid(dashboards[..i], uid)
  {
    forall uid ensures LastWithUid(dashboards[..i + 1], uid) == LastWithUid(dashboards[..i], uid) {
      LastWithUidStep(dashboards, i, uid);
    }
  }

  /** Storing an indexed dashboard under its uid keeps both dicts in step with
      the last dashboard of each uid. */
  lemma IndexedStep(byUid: seq<(string, Value)>, index: seq<(string, seq<string>)>, dashboards: seq<Value>, i: nat,
                    uid: string, names: seq<string>)
    requires i < |dashboards| && IndexDashboard(dashboards[i]) == Ok(Indexed(uid, names))
    requires UniqueKeys(byUid) && UniqueKeys(index)
    requires forall u :: Lookup(byUid, u) == LastWithUid(dashboards[..i], u)
    requires forall u :: Lookup(index, u) == NamesOf(LastWithUid(dashboards[..i], u))
    ensures UniqueKeys(Store(byUid, uid, dashboards[i])) && UniqueKeys(Store(index, uid, names))
    ensures forall u :: Lookup(Store(byUid, uid, dashboards[i]), u) == LastWithUid(dashboards[..i + 1], u)
    ensures forall u :: Lookup(Store(index, uid, names), u) == NamesOf(LastWithUid(dashboards[..i + 1], u))
  {
    StoreUnique(byUid, uid, dashboards[i]);
    StoreUnique(index, uid, names);
    forall u ensures LastWithUid(dashboards[..i + 1], u) == if u == uid then Some(dashboards[i]) else LastWithUid(dashboards[..i], u) {
      LastWithUidStep(dashboards, i, u);
    }
  }

  /** The names indexed under `uid`: those of the last dashboard with that uid. */
  function NamesOf(dashboard: Option<Value>): Option<seq<string>>
  {
    match dashboard
    case None => None
    case Some(d) =>
      match IndexDashboard(d)
      case Ok(Indexed(_, names)) => Some(names)
      case _ => None
  }

  /** The last data source listed under `name`. */
  function LastWithName(datasources: seq<Value>, name: string): (r: Option<Value>)
    ensures r.Some? ==> r.value in datasources && Attr(r.value, "name") == Ok(Str(name))
  {
    if datasources == [] then None
    else
      var last := datasources[|datasources| - 1];
      if Attr(last, "name") == Ok(Str(name)) then Some(last)
      else LastWithName(datasources[..|datasources| - 1], name)
  }

  /** `uid` once for every time `name` occurs in `names`. */
  function Occurrences(names: seq<string>, name: string, uid: string): (r: seq<string>)
    ensures forall u :: u in r ==> u == uid
    ensures name in names <==> r != []
  {
    if names == [] then []
    else Occurrences(names[..|names| - 1], name, uid) + (if names[|names| - 1] == name then [uid] else [])
  }

  /** The uids using `name`, in the order of the dashboard index. */
  function Users(index: seq<(string, seq<string>)>, name: string): seq<string>
  {
    if index == [] then []
    else
      var last := index[|index| - 1];
      Users(index[..|index| - 1], name) + Occurrences(last.1, name, last.0)
  }

  /** How a missing key is told apart: a list stored in the inverted index is never empty. */
  function NonEmpty(xs: seq<string>): Option<seq<string>>
  {
    if xs == [] then None else Some(xs)
  }

  /** The uids in `Users` are those whose entries hold the name. */
  lemma {:induction false} UsersMember(index: seq<(string, seq<string>)>, name: string, uid: string)
    ensures uid in Users(index, name) <==> exists j :: 0 <= j < |index| && index[j].0 == uid && name in index[j].1
    decreases |index|
  {
    if index != [] {
      var init := index[..|index| - 1];
      var last := index[|index| - 1];
      UsersMember(init, name, uid);
      assert uid in Users(index, name) <==> uid in Users(init, name) || uid in Occurrences(last.1, name, last.0);
      if uid in Users(init, name) {
        var j :| 0 <= j < |init| && init[j].0 == uid && name in init[j].1;
        assert index[j] == init[j];
      }
      if exists j :: 0 <= j < |index| && index[j].0 == uid && name in index[j].1 {
        var j :| 0 <= j < |index| && index[j].0 == uid && name in index[j].1;
        if j < |init| {
          assert init[j] == index[j];
        } else {
          assert index[j] == last;
          assert name in last.1 && last.0 == uid;
          var occ := Occurrences(last.1, name, last.0);
          assert occ != [];
          assert occ[0] in occ;
        }
      }
    }
  }

  /** No uid is listed twice when each uid has one entry and each entry names
      a data source at most once. */
  lemma {:induction false} UsersDistinct(index: seq<(string, seq<string>)>, name: string)
    requires UniqueKeys(index)
    requires forall j :: 0 <= j < |index| ==> Order.StrictlySorted(index[j].1)
    ensures forall a, b :: 0 <= a < b < |Users(index, name)| ==> Users(index, name)[a] != Users(index, name)[b]
    decreases |index|
  {
    if index != [] {
      var init := index[..|index| - 1];
      var last := index[|index| - 1];
      assert UniqueKeys(init);
      assert forall j :: 0 <= j < |init| ==> init[j] == index[j];
      UsersDistinct(init, name);
      var front := Users(init, name);
      var back := Occurrences(last.1, name, last.0);
      OccurrencesAtMostOnce(last.1, name, last.0);
      forall u | u in front
        ensures u != last.0
      {
        UsersMember(init, name, u);
        var j :| 0 <= j < |init| && init[j].0 == u && name in init[j].1;
        assert index[j].0 == u && j < |index| - 1;
      }
      var all := Users(index, name);
      assert all == front + back;
      forall a, b | 0 <= a < b < |all|
        ensures all[a] != all[b]
      {
        if b >= |front| && a < |front| {
          assert all[b] == back[b - |front|] && all[b] in back;
          assert all[a] in front;
        } else if a >= |front| {
          assert false;
        }
      }
    }
  }

  /** A name occurring at most once gives its uid at most once. */
  lemma {:induction false} OccurrencesAtMostOnce(names: seq<string>, name: string, uid: string)
    requires Order.StrictlySorted(names)
    ensures |Occurrences(names, name, uid)| <= 1
    decreases |names|
  {
    if names != [] {
      var init := names[..|names| - 1];
      assert Order.StrictlySorted(init);
      OccurrencesAtMostOnce(init, name, uid);
      if names[|names| - 1] == name {
        Order.SortedDistinctElements(names);
        assert name !in init by {
          forall k | 0 <= k < |init|
            ensures init[k] != name
          {
            assert init[k] == names[k];
          }
        }
      }
    }
  }

  /** `d.setdefault(name, []).append(uid)`. */
  function AppendTo(index: seq<(string, seq<string>)>, name: string, uid: string): (r: seq<(string, seq<string>)>)
    ensures Lookup(r, name) == Some(ListOf(index, name) + [uid])
    ensures forall n :: n != name ==> Lookup(r, n) == Lookup(index, n)
  {
    Store(index, name, ListOf(index, name) + [uid])
  }

  /** `d.get(name, [])`. */
  function ListOf(index: seq<(string, seq<string>)>, name: string): seq<string>
  {
    match Lookup(index, name)
    case Some(us) => us
    case None => []
  }

  // ---------------------------------------------------------------------------
  // The indexer

  class Indexer {
    /** What the scans returned; `None` when a scan failed. */
    var dashboards: Option<seq<Value>>
    var datasources: Option<seq<Value>>

    var dashboardByUid: seq<(string, Value)>
    var datasourceByName: seq<(string, Value)>
    var dashboardDatasourceIndex: seq<(string, seq<string>)>
    var datasourceDashboardIndex: seq<(string, seq<string>)>

    /** The state after the scans, before `index()` runs. */
    constructor (scannedDashboards: Option<seq<Value>>, scannedDatasources: Option<seq<Value>>)
      ensures dashboards == scannedDashboards && datasources == scannedDatasources
      ensures dashboardByUid == [] && datasourceByName == []
      ensures dashboardDatasourceIndex == [] && datasourceDashboardIndex == []
    {
      dashboards, datasources := scannedDashboards, scannedDatasources;
      dashboardByUid, datasourceByName := [], [];
      dashboardDatasourceIndex, datasourceDashboardIndex := [], [];
    }

    /** `index_dashboards()`: every dashboard that is not a folder under its uid,
        with the names of the data sources it uses. Iterating a failed scan
        raises TypeError. */
    method IndexDashboards() returns (r: Result<Unit>)
      modifies this
      ensures dashboards == old(dashboards) && datasources == old(datasources)
      ensures datasourceByName == old(datasourceByName) && datasourceDashboardIndex == old(datasourceDashboardIndex)
      ensures r.Ok? <==> dashboards.Some? && forall i :: 0 <= i < |dashboards.value| ==> IndexDashboard(dashboards.value[i]).Ok?
      ensures dashboards.None? ==> r == Err(TypeError)
      ensures r.Ok? ==> UniqueKeys(dashboardByUid) && UniqueKeys(dashboardDatasourceIndex)
      ensures r.Ok? ==> forall uid :: Lookup(dashboardByUid, uid) == LastWithUid(dashboards.value, uid)
      ensures r.Ok? ==> forall uid :: Lookup(dashboardDatasourceIndex, uid) == NamesOf(LastWithUid(dashboards.value, uid))
    {
      dashboardByUid := [];
      dashboardDatasourceIndex := [];
      if dashboards.None? {
        return Err(TypeError);
      }
      var all := dashboards.value;
      var i := 0;
      while i < |all|
        invariant 0 <= i <= |all| && dashboards == old(dashboards) && datasources == old(datasources)
        invariant datasourceByName == old(datasourceByName) && datasourceDashboardIndex == old(datasourceDashboardIndex)
        invariant Collect(all[..i], IndexDashboard).Ok?
        invariant UniqueKeys(dashboardByUid) && UniqueKeys(dashboardDatasourceIndex)
        invariant forall uid :: Lookup(dashboardByUid, uid) == LastWithUid(all[..i], uid)
        invariant forall uid :: Lookup(dashboardDatasourceIndex, uid) == NamesOf(LastWithUid(all[..i], uid))
      {
        var dashboard := all[i];
        assert all[..i + 1][..i] == all[..i];
        match IndexDashboard(dashboard) {
          case Err(e) =>
            return Err(e);
          case Ok(Folder) =>
            FolderStep(all, i);
          case Ok(Indexed(uid, names)) =>
            IndexedStep(dashboardByUid, dashboardDatasourceIndex, all, i, uid, names);
            dashboardByUid := Store(dashboardByUid, uid, dashboard);
            dashboardDatasourceIndex := Store(dashboardDatasourceIndex, uid, names);
        }
        i := i + 1;
      }
      assert all[..i] == all;
      CollectRows(all, IndexDashboard);
      r := Ok(Unit);
    }

    /** `index_datasources()`: every data source under its name, then, for each
        dashboard entry in index order, its uid appended under each name it uses.
        Data source names are strings; another name is reported as a TypeError. */
    method IndexDatasources() returns (r: Result<Unit>)
      modifies this
      ensures dashboards == old(dashboards) && datasources == old(datasources)
      ensures dashboardByUid == old(dashboardByUid) && dashboardDatasourceIndex == old(dashboardDatasourceIndex)
      ensures r.Ok? <==> datasources.Some? && forall i :: 0 <= i < |datasources.value| ==> NameOf(datasources.value[i]).Ok?
      ensures r.Ok? ==> UniqueKeys(datasourceByName) && UniqueKeys(datasourceDashboardIndex)
      ensures r.Ok? ==> forall name :: Lookup(datasourceByName, name) == LastWithName(datasources.value, name)
      ensures r.Ok? ==> forall name :: Lookup(datasourceDashboardIndex, name) == NonEmpty(Users(dashboardDatasourceIndex, name))
    {
      datasourceByName := [];
      datasourceDashboardIndex := [];
      if datasources.None? {
        return Err(TypeError);
      }
      var all := datasources.value;
      var i := 0;
      while i < |all|
        invariant 0 <= i <= |all| && dashboards == old(dashboards) && datasources == old(datasources)
        invariant dashboardByUid == old(dashboardByUid) && dashboardDatasourceIndex == old(dashboardDatasourceIndex)
        invariant datasourceDashboardIndex == []
        invariant forall j :: 0 <= j < i ==> NameOf(all[j]).Ok?
        invariant UniqueKeys(datasourceByName)
        invariant forall name :: Lookup(datasourceByName, name) == LastWithName(all[..i], name)
      {
        assert all[..i + 1][..i] == all[..i];
        match NameOf(all[i]) {
          case Err(e) =>
            return Err(e);
          case Ok(name) =>
            StoreUnique(datasourceByName, name, all[i]);
            datasourceByName := Store(datasourceByName, name, all[i]);
        }
        i := i + 1;
      }
      assert all[..i] == all;
      datasourceDashboardIndex := Invert(dashboardDatasourceIndex);
      r := Ok(Unit);
    }

    /** `index()`: the dashboards first, then the data sources. */
    method Index() returns (r: Result<Unit>)
      modifies this
      ensures dashboards == old(dashboards) && datasources == old(datasources)
      ensures r.Ok? <==> dashboards.Some? && datasources.Some?
                         && (forall i :: 0 <= i < |dashboards.value| ==> IndexDashboard(dashboards.value[i]).Ok?)
                         && (forall i :: 0 <= i < |datasources.value| ==> NameOf(datasources.value[i]).Ok?)
      ensures dashboards.None? ==> r == Err(TypeError)
      ensures r.Ok? ==> Indexed()
      ensures r.Ok? ==> forall uid :: Lookup(dashboardByUid, uid) == LastWithUid(dashboards.value, uid)
      ensures r.Ok? ==> forall uid :: Lookup(dashboardDatasourceIndex, uid) == NamesOf(LastWithUid(dashboards.value, uid))
      ensures r.Ok? ==> forall name :: Lookup(datasourceByName, name) == LastWithName(datasources.value, name)
      ensures r.Ok? ==> forall name :: Lookup(datasourceDashboardIndex, name) == NonEmpty(Users(dashboardDatasourceIndex, name))
    {
      r := IndexDashboards();
      if r.Err? {
        return;
      }
      assert forall uid :: Lookup(dashboardByUid, uid).Some? <==> Lookup(dashboardDatasourceIndex, uid).Some?;
      assert forall uid :: Lookup(dashboardDatasourceIndex, uid).Some? ==> Order.StrictlySorted(Lookup(dashboardDatasourceIndex, uid).value);
      r := IndexDatasources();
      if r.Ok? {
        CrossReference(dashboardDatasourceIndex, datasourceDashboardIndex);
      }
    }

    /** What a completed `index()` guarantees: the two name indexes are each
        other's inverse, no list names a uid twice, and every uid they name is
        a known dashboard. */
    ghost predicate Indexed()
      reads this
    {
      UniqueKeys(dashboardByUid) && UniqueKeys(datasourceByName) &&
      UniqueKeys(dashboardDatasourceIndex) && UniqueKeys(datasourceDashboardIndex) &&
      (forall uid :: Lookup(dashboardByUid, uid).Some? <==> Lookup(dashboardDatasourceIndex, uid).Some?) &&
      (forall name, uid :: (Lookup(datasourceDashboardIndex, name).Some? && uid in Lookup(datasourceDashboardIndex, name).value)
                           <==> (Lookup(dashboardDatasourceIndex, uid).Some? && name in Lookup(dashboardDatasourceIndex, uid).value)) &&
      (forall name :: Lookup(datasourceDashboardIndex, name).Some? ==>
                        var uids := Lookup(datasourceDashboardIndex, name).value;
                        forall a, b :: 0 <= a < b < |uids| ==> uids[a] != uids[b])
    }
  }

  /** `datasource.name` of one data source. */
  function NameOf(datasource: Value): (r: Result<string>)
    ensures r.Ok? <==> Attr(datasource, "name").Ok? && Attr(datasource, "name").value.Str?
    ensures r.Ok? ==> Attr(datasource, "name") == Ok(Str(r.value))
  {
    match Attr(datasource, "name")
    case Err(e) => Err(e)
    case Ok(name) => if name.Str? then Ok(name.s) else Err(TypeError)
  }

  /** The second half of `index_datasources`: for each entry in order, its uid
      appended under each of its names. */
  method Invert(index: seq<(string, seq<string>)>) returns (inverted: seq<(string, seq<string>)>)
    ensures UniqueKeys(inverted)
    ensures forall name :: Lookup(inverted, name) == NonEmpty(Users(index, name))
  {
    inverted := [];
    var i := 0;
    while i < |index|
      invariant 0 <= i <= |index|
      invariant UniqueKeys(inverted)
      invariant forall name :: Lookup(inverted, name) == NonEmpty(Users(index[..i], name))
    {
      var (uid, names) := index[i];
      inverted := AppendUnderEach(inverted, names, uid, name => Users(index[..i], name));
      forall name
        ensures Users(index[..i + 1], name) == Users(index[..i], name) + Occurrences(names, name, uid)
      {
        assert index[..i + 1][..i] == index[..i];
      }
      i := i + 1;
    }
    assert index[..i] == index;
  }

  /** The inner loop of the inversion: `uid` appended under each of `names` in
      turn, on top of the lists `before` gives. */
  method AppendUnderEach(inverted: seq<(string, seq<string>)>, names: seq<string>, uid: string,
                         ghost before: string -> seq<string>) returns (r: seq<(string, seq<string>)>)
    requires UniqueKeys(inverted)
    requires forall name :: Lookup(inverted, name) == NonEmpty(before(name))
    ensures UniqueKeys(r)
    ensures forall name :: Lookup(r, name) == NonEmpty(before(name) + Occurrences(names, name, uid))
  {
    r := inverted;
    var k := 0;
    assert names[..0] == [];
    assert forall name :: before(name) + Occurrences(names[..0], name, uid) == before(name);
    while k < |names|
      invariant 0 <= k <= |names|
      invariant UniqueKeys(r)
      invariant forall name :: Lookup(r, name) == NonEmpty(before(name) + Occurrences(names[..k], name, uid))
    {
      StoreUnique(r, names[k], ListOf(r, names[k]) + [uid]);
      var next := AppendTo(r, names[k], uid);
      forall name
        ensures Lookup(next, name) == NonEmpty(before(name) + Occurrences(names[..k + 1], name, uid))
      {
        InvertStep(r, before(name), names, k, uid, name);
      }
      r := next;
      k := k + 1;
    }
    assert names[..k] == names;
  }

  /** Appending `uid` under `names[k]` accounts for one more name of the entry. */
  lemma InvertStep(inverted: seq<(string, seq<string>)>, users: seq<string>, names: seq<string>, k: nat, uid: string, name: string)
    requires k < |names|
    requires Lookup(inverted, name) == NonEmpty(users + Occurrences(names[..k], name, uid))
    ensures Lookup(AppendTo(inverted, names[k], uid), name) == NonEmpty(users + Occurrences(names[..k + 1], name, uid))
  {
    assert names[..k + 1][..k] == names[..k];
    var front := Occurrences(names[..k], name, uid);
    var added := if names[k] == name then [uid] else [];
    assert Occurrences(names[..k + 1], name, uid) == front + added;
    assert users + (front + added) == (users + front) + added;
    if name == names[k] {
      assert ListOf(inverted, name) == users + front;
      assert Lookup(AppendTo(inverted, names[k], uid), name) == Some((users + front) + [uid]);
    } else {
      assert (users + front) + added == users + front;
      assert Lookup(AppendTo(inverted, names[k], uid), name) == Lookup(inverted, name);
    }
  }

  /** Inverting a dict of strictly sorted name lists lists each uid under exactly
      the names its entry holds, and each at most once. */
  lemma CrossReference(index: seq<(string, seq<string>)>, inverted: seq<(string, seq<string>)>)
    requires UniqueKeys(index)
    requires forall uid :: Lookup(index, uid).Some? ==> Order.StrictlySorted(Lookup(index, uid).value)
    requires forall name :: Lookup(inverted, name) == NonEmpty(Users(index, name))
    ensures forall name, uid :: (Lookup(inverted, name).Some? && uid in Lookup(inverted, name).value)
                                <==> (Lookup(index, uid).Some? && name in Lookup(index, uid).value)
    ensures forall name :: Lookup(inverted, name).Some? ==>
                             var uids := Lookup(inverted, name).value;
                             forall a, b :: 0 <= a < b < |uids| ==> uids[a] != uids[b]
  {
    forall j | 0 <= j < |index|
      ensures Order.StrictlySorted(index[j].1)
    {
      LookupAt(index, j);
    }
    forall name, uid
      ensures (Lookup(inverted, name).Some? && uid in Lookup(inverted, name).value)
              <==> (Lookup(index, uid).Some? && name in Lookup(index, uid).value)
    {
      UsersMember(index, name, uid);
      LookupFound(index, uid);
      if exists j :: 0 <= j < |index| && index[j].0 == uid && name in index[j].1 {
        var j :| 0 <= j < |index| && index[j].0 == uid && name in index[j].1;
        LookupAt(index, j);
      }
      if Lookup(index, uid).Some? && name in Lookup(index, uid).value {
        var j :| 0 <= j < |index| && index[j] == (uid, Lookup(index, uid).value);
      }
    }
    forall name | Lookup(inverted, name).Some?
      ensures var uids := Lookup(inverted, name).value;
              forall a, b :: 0 <= a < b < |uids| ==> uids[a] != uids[b]
    {
      UsersDistinct(index, name);
    }
  }
}
