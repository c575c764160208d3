/**
 * The tabular search report: one row per search hit, `Type` and `Name`
 * first, then the hit's bibliographic fields. For a dashboard these are its
 * title, folder, uid, timestamps, authors, the distinct data sources it
 * refers to and its URL; for a data source only its type.
 */
module Tabular {
  import opened Wrappers
  import opened Dict
  import opened Json
  import Text
  import PathFinder
  import Core

  // ---------------------------------------------------------------------------
  // get_datasources

  /** The values of the matches whose last key is `name`, in match order. */
  function NamedValues(nodes: seq<PathFinder.Node>, name: string): (r: seq<Value>)
    ensures |r| <= |nodes|
  {
    if nodes == [] then []
    else
      var last := nodes[|nodes| - 1];
      NamedValues(nodes[..|nodes| - 1], name) + (if PathFinder.LastName(last) == name then [last.value] else [])
  }

  /** A value is listed exactly when some match ends in the key `name` and holds it. */
  lemma {:induction false} NamedValuesFound(nodes: seq<PathFinder.Node>, name: string, x: Value)
    ensures x in NamedValues(nodes, name) <==> exists n :: n in nodes && PathFinder.LastName(n) == name && n.value == x
    decreases |nodes|
  {
    if nodes != [] {
      var init := nodes[..|nodes| - 1];
      NamedValuesFound(init, name, x);
      assert nodes == init + [nodes[|nodes| - 1]];
    }
  }

  /**
   * `$..datasource` applied to a hit. jsonpath_rw walks a document for
   * `$..name` exactly as for `$..*`, keeping at each dict only its field
   * `name`, so the matches are those of the `$..*` walk whose last key is
   * `datasource`. The hit's `meta` holds no dict (only the finder's match
   * objects), so all of them lie under `data`.
   */
  function DatasourceValues(hit: Core.Hit): seq<Value>
  {
    NamedValues(PathFinder.Nodes(hit.data), "datasource")
  }

  /** Every data source value found is stored under a `datasource` key of the item. */
  lemma DatasourceValuesStored(hit: Core.Hit, x: Value)
    requires WellFormed(hit.data) && x in DatasourceValues(hit)
    ensures exists route :: route != [] && route[|route| - 1] == PathFinder.Key("datasource")
                            && PathFinder.Resolve(hit.data, route) == Some(x)
  {
    NamedValuesFound(PathFinder.Nodes(hit.data), "datasource", x);
    var n :| n in PathFinder.Nodes(hit.data) && PathFinder.LastName(n) == "datasource" && n.value == x;
    PathFinder.NodesResolve(hit.data, n);
  }

  /** What is listed for one value: a dict as a plain dict, anything else as its text. */
  function Listed(v: Value): (e: Value)
    ensures v.Object? ==> e == v
    ensures !v.Object? ==> e == Str(PyStr(v, true))
  {
    if v.Object? then v else Str(PyStr(v, true))
  }

  /** `value in datasources`, by Python equality. */
  predicate Seen(kept: seq<Value>, e: Value)
  {
    exists k :: 0 <= k < |kept| && PyEq(e, kept[k])
  }

  /** The de-duplicated list `get_datasources` builds: falsy values are
      skipped, and a value equal to one listed already is not listed again. */
  function Unique(values: seq<Value>): (r: seq<Value>)
    ensures |r| <= |values|
  {
    if values == [] then []
    else
      var kept := Unique(values[..|values| - 1]);
      var v := values[|values| - 1];
      if !Truthy(v) || Seen(kept, Listed(v)) then kept else kept + [Listed(v)]
  }

  /** One more value: kept when it is truthy and not seen yet. */
  lemma UniqueAppend(values: seq<Value>, v: Value)
    ensures Unique(values + [v])
            == if !Truthy(v) || Seen(Unique(values), Listed(v)) then Unique(values) else Unique(values) + [Listed(v)]
  {
    assert (values + [v])[..|values|] == values;
  }

  /** No listed value equals one listed before it. */
  lemma {:induction false} UniqueDistinct(values: seq<Value>)
    ensures forall i, j :: 0 <= i < j < |Unique(values)| ==> !PyEq(Unique(values)[j], Unique(values)[i])
    decreases |values|
  {
    if values != [] {
      var kept := Unique(values[..|values| - 1]);
      UniqueDistinct(values[..|values| - 1]);
      var v := values[|values| - 1];
      if Truthy(v) && !Seen(kept, Listed(v)) {
        var r := kept + [Listed(v)];
        assert Unique(values) == r;
        forall i, j | 0 <= i < j < |r| ensures !PyEq(r[j], r[i]) {
          if j == |kept| {
            assert r[j] == Listed(v) && r[i] == kept[i];
            assert !PyEq(Listed(v), kept[i]);
          } else {
            assert r[j] == kept[j] && r[i] == kept[i];
          }
        }
      }
    }
  }

  /** Every listed value comes from a truthy value found. */
  lemma {:induction false} UniqueSound(values: seq<Value>)
    ensures forall e :: e in Unique(values) ==> exists v :: v in values && Truthy(v) && e == Listed(v)
    decreases |values|
  {
    if values != [] {
      var init := values[..|values| - 1];
      UniqueSound(init);
      forall e | e in Unique(values) ensures exists v :: v in values && Truthy(v) && e == Listed(v) {
        if e in Unique(init) {
          var v :| v in init && Truthy(v) && e == Listed(v);
          assert v in values;
        } else {
          assert values[|values| - 1] in values;
        }
      }
    }
  }

  /** Every truthy value found is listed, or something equal to it is. */
  lemma {:induction false} UniqueComplete(values: seq<Value>)
    requires forall i :: 0 <= i < |values| ==> WellFormed(values[i])
    ensures forall i :: 0 <= i < |values| && Truthy(values[i]) ==> Seen(Unique(values), Listed(values[i]))
    decreases |values|
  {
    if values != [] {
      var init := values[..|values| - 1];
      UniqueComplete(init);
      var kept := Unique(init);
      forall i | 0 <= i < |values| && Truthy(values[i]) ensures Seen(Unique(values), Listed(values[i])) {
        if i < |init| {
          assert init[i] == values[i];
          var k :| 0 <= k < |kept| && PyEq(Listed(values[i]), kept[k]);
          assert Unique(values)[k] == kept[k];
        } else if !Seen(kept, Listed(values[i])) {
          var r := Unique(values);
          assert r[|r| - 1] == Listed(values[i]);
          PyEqReflexiveListed(values[i]);
        }
      }
    }
  }

  /** A listed value equals itself. */
  lemma PyEqReflexiveListed(v: Value)
    requires WellFormed(v)
    ensures PyEq(Listed(v), Listed(v))
  {
    if v.Object? {
      PyEqReflexive(v);
    }
  }

  /** The list only grows: what the first `i` values list stays at the front,
      so values appear in the order they are first seen. */
  lemma {:induction false} UniqueGrows(values: seq<Value>, i: nat)
    requires i <= |values|
    ensures Unique(values[..i]) <= Unique(values)
    decreases |values| - i
  {
    if i < |values| {
      var n := |values|;
      assert values[..n - 1][..i] == values[..i];
      UniqueGrows(values[..n - 1], i);
      UniqueExtends(values);
    } else {
      assert values[..i] == values;
    }
  }

  /** One more value leaves the list of the others at the front. */
  lemma UniqueExtends(values: seq<Value>)
    requires values != []
    ensures Unique(values[..|values| - 1]) <= Unique(values)
  {
    var kept := Unique(values[..|values| - 1]);
    var e := Listed(values[|values| - 1]);
    assert Unique(values) == kept || Unique(values) == kept + [e];
  }

  /** `e in kept`: compares `e` with each element in turn. */
  method ListContains(kept: seq<Value>, e: Value) returns (present: bool)
    ensures present == Seen(kept, e)
  {
    present := false;
    var k := 0;
    while k < |kept|
      invariant 0 <= k <= |kept|
      invariant present == Seen(kept[..k], e)
    {
      assert kept[..k + 1][k] == kept[k];
      assert forall j :: 0 <= j < k ==> kept[..k + 1][j] == kept[..k][j];
      present := present || PyEq(e, kept[k]);
      k := k + 1;
    }
    assert kept[..k] == kept;
  }

  /** `get_datasources(item)`: walks the `$..datasource` matches and appends
      each new truthy value. */
  method GetDatasources(hit: Core.Hit) returns (datasources: seq<Value>)
    ensures datasources == Unique(DatasourceValues(hit))
  {
    var found := DatasourceValues(hit);
    datasources := [];
    var i := 0;
    while i < |found|
      invariant 0 <= i <= |found|
      invariant datasources == Unique(found[..i])
    {
      var v := found[i];
      assert found[..i + 1] == found[..i] + [v];
      UniqueAppend(found[..i], v);
      if Truthy(v) {
        var value := Listed(v);
        var present := ListContains(datasources, value);
        if !present {
          datasources := datasources + [value];
        }
      }
      i := i + 1;
    }
    assert found[..i] == found;
  }

  // ---------------------------------------------------------------------------
  // The Datasources cell

  /** `str()` of a listed value. A listed dict is a plain dict, so it prints
      as `{...}`, while the dicts inside it are still Munch objects. */
  function ListedText(e: Value): string
  {
    match e
    case Object(fields) =>
      var parts := seq(|fields|, i requires 0 <= i < |fields| => StrRepr(fields[i].0) + ": " + PyRepr(fields[i].1, true));
      "{" + Text.Join(parts, ", ") + "}"
    case _ => PyStr(e, true)
  }

  /** A listed dict prints as its Munch would, without the `Munch(...)` wrapper. */
  lemma ListedTextUnwrapped(fields: seq<(string, Value)>)
    ensures PyRepr(Object(fields), true) == "Munch(" + ListedText(Object(fields)) + ")"
  {
  }

  /** `",".join(map(str, datasources))`. */
  function DatasourcesCell(datasources: seq<Value>): (cell: string)
  {
    Text.Join(seq(|datasources|, i requires 0 <= i < |datasources| => ListedText(datasources[i])), ",")
  }

  /** The cell shows the text of every listed data source. */
  lemma DatasourcesCellShows(datasources: seq<Value>, i: nat)
    requires i < |datasources|
    ensures Text.Contains(DatasourcesCell(datasources), ListedText(datasources[i]))
  {
    var texts := seq(|datasources|, i requires 0 <= i < |datasources| => ListedText(datasources[i]));
    Text.JoinContainsPart(texts, ",", i);
  }

  // ---------------------------------------------------------------------------
  // Rows

  /** `get_item_name(item)`: the item's `name`, else its `meta.slug`, else "unknown". */
  function ItemName(data: Value): (r: Result<Value>)
    ensures (data.Null? || data.Bool? || data.Int?) ==> r == Err(TypeError)
  {
    match PyIn("name", data)
    case Err(e) => Err(e)
    case Ok(hasName) =>
      if hasName then Attr(data, "name")
      else match PyIn("meta", data)
        case Err(e) => Err(e)
        case Ok(hasMeta) =>
          if !hasMeta then Ok(Str("unknown"))
          else match Attr(data, "meta")
            case Err(e) => Err(e)
            case Ok(meta) =>
              match PyIn("slug", meta)
              case Err(e) => Err(e)
              case Ok(hasSlug) => if hasSlug then Attr(meta, "slug") else Ok(Str("unknown"))
  }

  /** For a dict: its `name` when it has one; otherwise the `slug` of its
      `meta` dict when there is one; otherwise "unknown". */
  lemma ItemNameCases(data: Value)
    requires data.Object?
    ensures Lookup(data.fields, "name").Some? ==> ItemName(data) == Ok(Lookup(data.fields, "name").value)
    ensures Lookup(data.fields, "name").None? && Lookup(data.fields, "meta").None? ==> ItemName(data) == Ok(Str("unknown"))
    ensures Lookup(data.fields, "name").None? && Lookup(data.fields, "meta").Some? && Lookup(data.fields, "meta").value.Object? ==>
              var meta := Lookup(data.fields, "meta").value;
              ItemName(data) == if Lookup(meta.fields, "slug").Some? then Ok(Lookup(meta.fields, "slug").value) else Ok(Str("unknown"))
  {
    LookupFound(data.fields, "name");
    LookupFound(data.fields, "meta");
    if Lookup(data.fields, "meta").Some? && Lookup(data.fields, "meta").value.Object? {
      LookupFound(Lookup(data.fields, "meta").value.fields, "slug");
    }
  }

  /** `item.a.b`: two attribute accesses. */
  function Attr2(v: Value, a: string, b: string): (r: Result<Value>)
    ensures r.Ok? <==> v.Object? && Lookup(v.fields, a).Some? && Lookup(v.fields, a).value.Object?
                       && Lookup(Lookup(v.fields, a).value.fields, b).Some?
    ensures r.Ok? ==> r.value == Lookup(Lookup(v.fields, a).value.fields, b).value
  {
    match Attr(v, a)
    case Err(e) => Err(e)
    case Ok(inner) => Attr(inner, b)
  }

  /** The bibliographic fields of a dashboard, in the order they are set;
      `underTest` says that PYTEST_CURRENT_TEST is set, which leaves out
      `Updated by`. */
  function DashboardBib(data: Value, datasources: seq<Value>, url: string, underTest: bool): (r: Result<seq<(string, Value)>>)
    ensures r.Ok? ==> data.Object?
    ensures r.Ok? ==> Keys(r.value) == ["Title", "Folder", "UID", "Created", "Updated", "Created by"]
                                       + (if underTest then [] else ["Updated by"]) + ["Datasources", "URL"]
    ensures r.Ok? ==> r.value[|r.value| - 1] == ("URL", Str(url))
                      && r.value[|r.value| - 2] == ("Datasources", Str(DatasourcesCell(datasources)))
  {
    match Attr2(data, "dashboard", "title")
    case Err(e) => Err(e)
    case Ok(title) =>
      match Attr2(data, "meta", "folderTitle")
      case Err(e) => Err(e)
      case Ok(folder) =>
        match Attr2(data, "dashboard", "uid")
        case Err(e) => Err(e)
        case Ok(uid) =>
          match Attr2(data, "meta", "created")
          case Err(e) => Err(e)
          case Ok(created) =>
            match Attr2(data, "meta", "updated")
            case Err(e) => Err(e)
            case Ok(updated) =>
              match Attr2(data, "meta", "createdBy")
              case Err(e) => Err(e)
              case Ok(createdBy) =>
                var head := [("Title", title), ("Folder", folder), ("UID", uid),
                             ("Created", Str(PyStr(created, true))), ("Updated", Str(PyStr(updated, true))),
                             ("Created by", createdBy)];
                var tail := [("Datasources", Str(DatasourcesCell(datasources))), ("URL", Str(url))];
                if underTest then Ok(head + tail)
                else match Attr2(data, "meta", "updatedBy")
                  case Err(e) => Err(e)
                  case Ok(updatedBy) => Ok(head + [("Updated by", updatedBy)] + tail)
  }

  /** `get_bibdata_dict(item, URL=url)`: a data source (no `dashboard` key)
      gives only `data_source_type`, if it has a type, and no URL. */
  function BibData(hit: Core.Hit, url: string, underTest: bool): (r: Result<seq<(string, Value)>>)
    ensures (hit.data.Null? || hit.data.Bool? || hit.data.Int?) ==> r == Err(TypeError)
  {
    match PyIn("dashboard", hit.data)
    case Err(e) => Err(e)
    case Ok(isDashboard) =>
      if !isDashboard then
        match PyIn("type", hit.data)
        case Err(e) => Err(e)
        case Ok(hasType) =>
          if !hasType then Ok([])
          else match Attr(hit.data, "type")
            case Err(e) => Err(e)
            case Ok(t) => Ok([("data_source_type", t)])
      else DashboardBib(hit.data, Unique(DatasourceValues(hit)), url, underTest)
  }

  /** For a dict item: a dashboard gets its dashboard fields, and anything
      else its type alone, or nothing. */
  lemma BibDataCases(hit: Core.Hit, url: string, underTest: bool)
    requires hit.data.Object?
    ensures Lookup(hit.data.fields, "dashboard").None? ==>
              BibData(hit, url, underTest)
              == if Lookup(hit.data.fields, "type").Some?
                 then Ok([("data_source_type", Lookup(hit.data.fields, "type").value)]) else Ok([])
    ensures Lookup(hit.data.fields, "dashboard").Some? ==>
              BibData(hit, url, underTest) == DashboardBib(hit.data, Unique(DatasourceValues(hit)), url, underTest)
  {
    LookupFound(hit.data.fields, "dashboard");
    LookupFound(hit.data.fields, "type");
  }

  /** A dashboard's fields hold each key once, never `Type` or `Name`, and end with `URL`. */
  lemma DashboardBibKeys(data: Value, datasources: seq<Value>, url: string, underTest: bool)
    requires DashboardBib(data, datasources, url, underTest).Ok?
    ensures var bib := DashboardBib(data, datasources, url, underTest).value;
            && UniqueKeys(bib) && "Type" !in Keys(bib) && "Name" !in Keys(bib)
            && bib != [] && bib[|bib| - 1] == ("URL", Str(url))
  {
    var bib := DashboardBib(data, datasources, url, underTest).value;
    DashboardBibKeyList(data, datasources, url, underTest);
    BibKeysDistinct(underTest);
    var keys := BibKeys(underTest);
    assert forall i :: 0 <= i < |bib| ==> bib[i].0 == keys[i];
  }

  /** The keys of a dashboard's bibliographic fields, in order. */
  function BibKeys(underTest: bool): seq<string>
  {
    ["Title", "Folder", "UID", "Created", "Updated", "Created by"]
    + (if underTest then [] else ["Updated by"]) + ["Datasources", "URL"]
  }

  /** The bibliographic keys are distinct and never `Type` or `Name`. */
  lemma BibKeysDistinct(underTest: bool)
    ensures var keys := BibKeys(underTest);
            (forall i, j :: 0 <= i < j < |keys| ==> keys[i] != keys[j]) && "Type" !in keys && "Name" !in keys
  {
  }

  /** A dashboard's fields carry the bibliographic keys in order and end with its URL. */
  lemma DashboardBibKeyList(data: Value, datasources: seq<Value>, url: string, underTest: bool)
    requires DashboardBib(data, datasources, url, underTest).Ok?
    ensures var bib := DashboardBib(data, datasources, url, underTest).value;
            Keys(bib) == BibKeys(underTest) && bib[|bib| - 1] == ("URL", Str(url))
  {
  }

  /** The bibliographic keys are distinct and never `Type` or `Name`; a
      dashboard's end with `URL`. */
  lemma BibDataKeys(hit: Core.Hit, url: string, underTest: bool)
    requires BibData(hit, url, underTest).Ok?
    ensures var bib := BibData(hit, url, underTest).value;
            && UniqueKeys(bib) && "Type" !in Keys(bib) && "Name" !in Keys(bib)
    ensures hit.data.Object? && Lookup(hit.data.fields, "dashboard").Some? ==>
              var bib := BibData(hit, url, underTest).value;
              bib != [] && bib[|bib| - 1] == ("URL", Str(url))
  {
    var ds := Unique(DatasourceValues(hit));
    if DashboardBib(hit.data, ds, url, underTest).Ok? {
      DashboardBibKeys(hit.data, ds, url, underTest);
    }
    if hit.data.Object? {
      BibDataCases(hit, url, underTest);
    }
  }

  /** One row of `get_output_items`: `Type` and `Name`, then the bibliographic
      fields. The URL is computed before the fields are collected. */
  function OutputRow(section: string, hit: Core.Hit, urlOf: Core.Hit -> Result<string>, underTest: bool): (r: Result<Value>)
  {
    match ItemName(hit.data)
    case Err(e) => Err(e)
    case Ok(name) =>
      match urlOf(hit)
      case Err(e) => Err(e)
      case Ok(url) =>
        match BibData(hit, url, underTest)
        case Err(e) => Err(e)
        case Ok(bib) => Ok(Object([("Type", Str(section)), ("Name", name)] + bib))
  }

  /** A row starts with the section and the item's name, and then holds each
      bibliographic field once; a dashboard row ends with its URL. */
  lemma OutputRowShape(section: string, hit: Core.Hit, urlOf: Core.Hit -> Result<string>, underTest: bool)
    requires OutputRow(section, hit, urlOf, underTest).Ok?
    ensures var row := OutputRow(section, hit, urlOf, underTest).value;
            && row.Object? && |row.fields| >= 2
            && row.fields[0] == ("Type", Str(section))
            && row.fields[1] == ("Name", ItemName(hit.data).value)
            && UniqueKeys(row.fields)
    ensures hit.data.Object? && Lookup(hit.data.fields, "dashboard").Some? ==>
              var row := OutputRow(section, hit, urlOf, underTest).value;
              row.fields[|row.fields| - 1] == ("URL", Str(urlOf(hit).value))
  {
    var bib := BibData(hit, urlOf(hit).value, underTest).value;
    BibDataKeys(hit, urlOf(hit).value, underTest);
    TypeNameFirst(section, ItemName(hit.data).value, bib);
  }

  /** Putting `Type` and `Name` in front of fields that have neither keeps the keys distinct. */
  lemma TypeNameFirst(section: string, name: Value, bib: seq<(string, Value)>)
    requires UniqueKeys(bib) && "Type" !in Keys(bib) && "Name" !in Keys(bib)
    ensures UniqueKeys([("Type", Str(section)), ("Name", name)] + bib)
  {
    var row := [("Type", Str(section)), ("Name", name)] + bib;
    forall i, j | 0 <= i < j < |row| ensures row[i].0 != row[j].0 {
      if j >= 2 {
        assert row[j] == bib[j - 2];
        assert Keys(bib)[j - 2] == row[j].0;
        if i >= 2 {
          assert row[i] == bib[i - 2];
        }
      }
    }
  }

  /** `OutputRow` for one section, as a function of the hit. */
  function RowMaker(section: string, urlOf: Core.Hit -> Result<string>, underTest: bool): (row: Core.Hit -> Result<Value>)
    ensures forall hit :: row(hit) == OutputRow(section, hit, urlOf, underTest)
  {
    hit => OutputRow(section, hit, urlOf, underTest)
  }

  /** `get_output_items(section, items, url_callback)`: one row per hit, in order. */
  function OutputItems(section: string, hits: seq<Core.Hit>, urlOf: Core.Hit -> Result<string>, underTest: bool): (r: Result<seq<Value>>)
  {
    Collect(hits, RowMaker(section, urlOf, underTest))
  }

  /** The rows are the hits' rows, one each, in order, when no hit raises. */
  lemma OutputItemsRows(section: string, hits: seq<Core.Hit>, urlOf: Core.Hit -> Result<string>, underTest: bool)
    ensures OutputItems(section, hits, urlOf, underTest).Ok?
            <==> forall k :: 0 <= k < |hits| ==> OutputRow(section, hits[k], urlOf, underTest).Ok?
    ensures OutputItems(section, hits, urlOf, underTest).Ok? ==>
              var rows := OutputItems(section, hits, urlOf, underTest).value;
              |rows| == |hits|
              && forall k :: 0 <= k < |hits| ==> rows[k] == OutputRow(section, hits[k], urlOf, underTest).value
  {
    CollectRows(hits, RowMaker(section, urlOf, underTest));
  }
}
