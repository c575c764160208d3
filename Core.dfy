/**
 * The search engine of `grafana_wtf/core.py` (`GrafanaSearch`): the data it
 * scans from a Grafana instance, the structural search over it, the
 * search-and-replace that saves changed dashboards, the flattened edit
 * history and the breakdown of data sources into used and unused ones.
 *
 * The Grafana HTTP API is a value of type `Remote`: what each call the engine
 * makes returns. A failed call raises a client error (`ClientError`).
 */
module Core {
  import opened Wrappers
  import opened Dict
  import opened Json
  import Text
  import Order
  import PathFinder
  import Monkey
  import Model
  import Indexing

  /** The Grafana instance, call by call. */
  datatype Remote = Remote(
    /** `get_dashboard(uid)`; a uid it lacks is answered with a client error. */
    dashboards: map<Value, Value>,
    /** `search_dashboards(limit=5000)`. */
    listing: Result<seq<Value>>,
    /** `list_datasources()`. */
    datasources: Result<seq<Value>>,
    /** `GET /dashboards/id/<id>/versions`; an id it lacks is answered with a client error. */
    versions: map<Value, Value>,
    /** Payloads the dashboard save endpoint refuses with a client error. */
    rejected: set<Value>)

  // ---------------------------------------------------------------------------
  // Loops that stop at the first exception

  /** What such a loop leaves behind: the results collected so far and the
      exception that stopped it, if any. */
  datatype Progress<T> = Progress(done: seq<T>, error: Option<Error>)

  /** The progress of a loop that had collected `prefix` before reaching the rest. */
  function After<T>(prefix: seq<T>, p: Progress<T>): Progress<T>
  {
    Progress(prefix + p.done, p.error)
  }

  /** Helper: nothing collected before leaves the progress as it is. */
  lemma AfterNothing<T>(p: Progress<T>)
    ensures After([], p) == p
  {
    assert [] + p.done == p.done;
  }

  /** Helper: two collected prefixes in a row are one prefix. */
  lemma AfterAfter<T>(a: seq<T>, b: seq<T>, p: Progress<T>)
    ensures After(a, After(b, p)) == After(a + b, p)
  {
    assert a + (b + p.done) == (a + b) + p.done;
  }

  /** A list result preceded by `prefix`; an exception stays as it is. */
  function Prepend<T>(prefix: seq<T>, r: Result<seq<T>>): Result<seq<T>>
  {
    match r
    case Ok(rest) => Ok(prefix + rest)
    case Err(e) => Err(e)
  }

  /** Helper: two prefixes in a row are one prefix. */
  lemma PrependPrepend<T>(a: seq<T>, b: seq<T>, r: Result<seq<T>>)
    ensures Prepend(a, Prepend(b, r)) == Prepend(a + b, r)
  {
    if r.Ok? {
      assert a + (b + r.value) == (a + b) + r.value;
    }
  }

  /** Helper: an empty prefix leaves the result as it is. */
  lemma PrependNothing<T>(r: Result<seq<T>>)
    ensures Prepend([], r) == r
  {
    if r.Ok? {
      assert [] + r.value == r.value;
    }
  }

  // ---------------------------------------------------------------------------
  // search_items

  /** A search hit, `{meta: {}, data: item}` or `{meta: {matches: ...}, data: item}`. */
  datatype Hit = Hit(matches: Option<seq<PathFinder.Node>>, data: Value)

  /** What `search` returns: hits among the data sources and among the dashboards. */
  datatype SearchResults = SearchResults(datasources: seq<Hit>, dashboardList: seq<Hit>, dashboards: seq<Hit>)

  /** The hit an item gives, if any: every item when there is no expression,
      otherwise only an item whose finder matches are not empty. The finder
      is `find` as written, fast reject included. Items are Munch objects, so
      their text is that of Munch dicts. */
  function HitsFor(expression: Option<string>, item: Value): seq<Hit>
  {
    match expression
    case None => [Hit(None, item)]
    case Some(e) =>
      var matches := PathFinder.FindAsWritten(e, item, true);
      if matches == [] then [] else [Hit(Some(matches), item)]
  }

  /** `HitsFor` for one expression, as a function of the item. */
  function HitFinder(expression: Option<string>): (f: Value -> seq<Hit>)
    ensures forall item :: f(item) == HitsFor(expression, item)
  {
    item => HitsFor(expression, item)
  }

  /** What `f` gives for each element, concatenated in order. */
  function FlatMap<T, U>(xs: seq<T>, f: T -> seq<U>): seq<U>
  {
    if xs == [] then [] else FlatMap(xs[..|xs| - 1], f) + f(xs[|xs| - 1])
  }

  lemma FlatMapSnoc<T, U>(xs: seq<T>, x: T, f: T -> seq<U>)
    ensures FlatMap(xs + [x], f) == FlatMap(xs, f) + f(x)
  {
    assert (xs + [x])[..|xs|] == xs;
  }

  lemma {:induction false} FlatMapAppend<T, U>(a: seq<T>, b: seq<T>, f: T -> seq<U>)
    ensures FlatMap(a + b, f) == FlatMap(a, f) + FlatMap(b, f)
    decreases |b|
  {
    if b == [] {
      assert a + b == a;
    } else {
      var init := b[..|b| - 1];
      assert a + b == (a + init) + [b[|b| - 1]];
      FlatMapSnoc(a + init, b[|b| - 1], f);
      FlatMapAppend(a, init, f);
    }
  }

  lemma {:induction false} FlatMapMember<T, U>(xs: seq<T>, f: T -> seq<U>, y: U)
    ensures y in FlatMap(xs, f) <==> exists i :: 0 <= i < |xs| && y in f(xs[i])
    decreases |xs|
  {
    if xs != [] {
      var init := xs[..|xs| - 1];
      FlatMapMember(init, f, y);
      if y in FlatMap(init, f) {
        var i :| 0 <= i < |init| && y in f(init[i]);
        assert xs[i] == init[i];
      }
      if exists i :: 0 <= i < |xs| && y in f(xs[i]) {
        var i :| 0 <= i < |xs| && y in f(xs[i]);
        if i < |init| {
          assert init[i] == xs[i];
        }
      }
    }
  }

  /** The hits of `search_items`, item by item. */
  function SearchHits(expression: Option<string>, items: seq<Value>): seq<Hit>
  {
    FlatMap(items, HitFinder(expression))
  }

  /** Hits come in the order of the items. */
  lemma SearchHitsAppend(expression: Option<string>, a: seq<Value>, b: seq<Value>)
    ensures SearchHits(expression, a + b) == SearchHits(expression, a) + SearchHits(expression, b)
  {
    FlatMapAppend(a, b, HitFinder(expression));
  }

  /** Without an expression every item is wrapped, in order, with empty meta. */
  lemma {:induction false} SearchWithoutExpression(items: seq<Value>)
    ensures |SearchHits(None, items)| == |items|
    ensures forall i :: 0 <= i < |items| ==> SearchHits(None, items)[i] == Hit(None, items[i])
    decreases |items|
  {
    if items != [] {
      var init := items[..|items| - 1];
      SearchWithoutExpression(init);
      assert items == init + [items[|items| - 1]];
      FlatMapSnoc(init, items[|items| - 1], HitFinder(None));
    }
  }

  /** With an expression, the hits are the items with matches, each carrying
      exactly the finder's matches for it. */
  lemma SearchWithExpression(e: string, items: seq<Value>)
    ensures forall h :: h in SearchHits(Some(e), items) ==>
              h.data in items && h.matches == Some(PathFinder.FindAsWritten(e, h.data, true))
              && h.matches.value != []
    ensures forall i :: 0 <= i < |items| && PathFinder.FindAsWritten(e, items[i], true) != [] ==>
              Hit(Some(PathFinder.FindAsWritten(e, items[i], true)), items[i]) in SearchHits(Some(e), items)
  {
    var f := HitFinder(Some(e));
    forall h | h in SearchHits(Some(e), items)
      ensures h.data in items && h.matches == Some(PathFinder.FindAsWritten(e, h.data, true))
              && h.matches.value != []
    {
      FlatMapMember(items, f, h);
      var i :| 0 <= i < |items| && h in f(items[i]);
    }
    forall i | 0 <= i < |items| && PathFinder.FindAsWritten(e, items[i], true) != []
      ensures Hit(Some(PathFinder.FindAsWritten(e, items[i], true)), items[i]) in SearchHits(Some(e), items)
    {
      var h := Hit(Some(PathFinder.FindAsWritten(e, items[i], true)), items[i]);
      assert h in f(items[i]);
      FlatMapMember(items, f, h);
    }
  }

  /** For an expression of printable ASCII other than a backslash or a quote,
      each hit carries every filtered `$..*` match of its item, and every item
      with such a match is a hit. */
  lemma SearchWithPlainExpression(e: string, items: seq<Value>)
    requires Plain(e)
    ensures forall h :: h in SearchHits(Some(e), items) ==>
              h.data in items && h.matches == Some(PathFinder.FilterMatches(e, PathFinder.Nodes(h.data), true))
    ensures forall i :: 0 <= i < |items| && PathFinder.FilterMatches(e, PathFinder.Nodes(items[i]), true) != [] ==>
              Hit(Some(PathFinder.FilterMatches(e, PathFinder.Nodes(items[i]), true)), items[i]) in SearchHits(Some(e), items)
  {
    SearchWithExpression(e, items);
    forall v: Value ensures PathFinder.FindAsWritten(e, v, true) == PathFinder.FilterMatches(e, PathFinder.Nodes(v), true) {
      PathFinder.FindAsWrittenPlain(e, v, true);
    }
  }

  /** An expression holding a character that `repr()` escapes, other than a
      backslash or a quote, finds no hit among dict or list items, whatever
      their fields hold. */
  lemma SearchLosesEscaped(e: string, c: char, items: seq<Value>)
    requires c in e && Escapable(c) && !PrintableAscii(c)
    requires forall i :: 0 <= i < |items| ==> !items[i].Str?
    ensures SearchHits(Some(e), items) == []
  {
    if SearchHits(Some(e), items) != [] {
      SearchWithExpression(e, items);
      var h := SearchHits(Some(e), items)[0];
      assert h in SearchHits(Some(e), items);
      PathFinder.FindAsWrittenLosesEscaped(e, h.data, true, c);
    }
  }

  // ---------------------------------------------------------------------------
  // Fetching dashboards

  /** `fetch_dashboard(info)`: its log line reads `info["title"]` and
      `info["uid"]`, then the dashboard is fetched by uid. */
  function FetchOne(remote: Remote, info: Value): (r: Result<Value>)
    ensures r.Ok? <==> Subscript(info, "title").Ok? && Subscript(info, "uid").Ok?
                       && Subscript(info, "uid").value in remote.dashboards
    ensures r.Ok? ==> r.value == remote.dashboards[Subscript(info, "uid").value]
    ensures Subscript(info, "title").Ok? && Subscript(info, "uid").Ok? && r.Err? ==> r.error == ClientError
  {
    match Subscript(info, "title")
    case Err(e) => Err(e)
    case Ok(_) =>
      match Subscript(info, "uid")
      case Err(e) => Err(e)
      case Ok(uid) => if uid in remote.dashboards then Ok(remote.dashboards[uid]) else Err(ClientError)
  }

  /** `fetch_dashboards()`: one fetch per listed dashboard, in order, until one raises. */
  function FetchAll(remote: Remote, infos: seq<Value>): (p: Progress<Value>)
    ensures |p.done| <= |infos|
    decreases |infos|
  {
    if infos == [] then Progress([], None)
    else match FetchOne(remote, infos[0])
      case Err(e) => Progress([], Some(e))
      case Ok(d) => After([d], FetchAll(remote, infos[1..]))
  }

  /** The fetched dashboards are those of the listed entries, in list order,
      up to the first entry whose fetch raises, whose exception is reported. */
  lemma {:induction false} FetchAllInOrder(remote: Remote, infos: seq<Value>)
    ensures forall i :: 0 <= i < |FetchAll(remote, infos).done| ==> FetchOne(remote, infos[i]) == Ok(FetchAll(remote, infos).done[i])
    ensures FetchAll(remote, infos).error.None? <==> forall i :: 0 <= i < |infos| ==> FetchOne(remote, infos[i]).Ok?
    ensures FetchAll(remote, infos).error.None? ==> |FetchAll(remote, infos).done| == |infos|
    ensures FetchAll(remote, infos).error.Some? ==>
              |FetchAll(remote, infos).done| < |infos|
              && FetchOne(remote, infos[|FetchAll(remote, infos).done|]) == Err(FetchAll(remote, infos).error.value)
    decreases |infos|
  {
    if infos != [] && FetchOne(remote, infos[0]).Ok? {
      FetchAllInOrder(remote, infos[1..]);
      assert forall i :: 1 <= i < |infos| ==> infos[1..][i - 1] == infos[i];
    }
  }

  lemma FetchAllUnfold(remote: Remote, infos: seq<Value>)
    requires infos != []
    ensures FetchAll(remote, infos) == match FetchOne(remote, infos[0])
                                       case Err(e) => Progress([], Some(e))
                                       case Ok(d) => After([d], FetchAll(remote, infos[1..]))
  {
  }

  /** An order in which `n` parallel fetches complete: every position exactly once. */
  predicate IsSchedule(schedule: seq<nat>, n: nat)
  {
    |schedule| == n
    && (forall k :: 0 <= k < |schedule| ==> schedule[k] < n)
    && (forall i :: 0 <= i < n ==> i in schedule)
    && (forall a, b :: 0 <= a < b < |schedule| ==> schedule[a] != schedule[b])
  }

  /** The parallel fetch: each fetch that succeeds appends its dashboard when it
      completes; one that raises is lost with its worker thread. */
  function FetchScheduled(remote: Remote, infos: seq<Value>, schedule: seq<nat>): (fetched: seq<Value>)
    ensures |fetched| <= |schedule|
  {
    if schedule == [] then []
    else
      var p := schedule[|schedule| - 1];
      FetchScheduled(remote, infos, schedule[..|schedule| - 1])
      + (if p < |infos| && FetchOne(remote, infos[p]).Ok? then [FetchOne(remote, infos[p]).value] else [])
  }

  /** A dashboard is appended exactly when some scheduled fetch returns it. */
  lemma {:induction false} FetchScheduledMember(remote: Remote, infos: seq<Value>, schedule: seq<nat>, d: Value)
    ensures d in FetchScheduled(remote, infos, schedule) <==>
            exists k :: 0 <= k < |schedule| && schedule[k] < |infos| && FetchOne(remote, infos[schedule[k]]) == Ok(d)
    decreases |schedule|
  {
    if schedule != [] {
      var init := schedule[..|schedule| - 1];
      var p := schedule[|schedule| - 1];
      FetchScheduledMember(remote, infos, init, d);
      var inLast := p < |infos| && FetchOne(remote, infos[p]) == Ok(d);
      assert d in FetchScheduled(remote, infos, schedule) <==> d in FetchScheduled(remote, infos, init) || inLast;
      if exists k :: 0 <= k < |init| && init[k] < |infos| && FetchOne(remote, infos[init[k]]) == Ok(d) {
        var k :| 0 <= k < |init| && init[k] < |infos| && FetchOne(remote, infos[init[k]]) == Ok(d);
        assert schedule[k] == init[k];
      }
      if inLast {
        assert schedule[|schedule| - 1] == p;
      }
      if exists k :: 0 <= k < |schedule| && schedule[k] < |infos| && FetchOne(remote, infos[schedule[k]]) == Ok(d) {
        var k :| 0 <= k < |schedule| && schedule[k] < |infos| && FetchOne(remote, infos[schedule[k]]) == Ok(d);
        if k < |init| {
          assert init[k] == schedule[k];
        } else {
          assert inLast;
        }
      }
    }
  }

  /** When every scheduled fetch succeeds, each appends one dashboard. */
  lemma {:induction false} FetchScheduledLength(remote: Remote, infos: seq<Value>, schedule: seq<nat>)
    requires forall k :: 0 <= k < |schedule| ==> schedule[k] < |infos| && FetchOne(remote, infos[schedule[k]]).Ok?
    ensures |FetchScheduled(remote, infos, schedule)| == |schedule|
    decreases |schedule|
  {
    if schedule != [] {
      var init := schedule[..|schedule| - 1];
      assert forall k :: 0 <= k < |init| ==> init[k] == schedule[k];
      FetchScheduledLength(remote, infos, init);
    }
  }

  /** The parallel fetch finds the same dashboards as the sequential one, in
      completion order rather than list order. */
  lemma ParallelFetchesSame(remote: Remote, infos: seq<Value>, schedule: seq<nat>)
    requires IsSchedule(schedule, |infos|)
    ensures forall d :: d in FetchScheduled(remote, infos, schedule) <==>
                        exists i :: 0 <= i < |infos| && FetchOne(remote, infos[i]) == Ok(d)
    ensures FetchAll(remote, infos).error.None? ==>
              |FetchScheduled(remote, infos, schedule)| == |FetchAll(remote, infos).done|
              && forall d :: d in FetchScheduled(remote, infos, schedule) <==> d in FetchAll(remote, infos).done
  {
    var fetched := FetchScheduled(remote, infos, schedule);
    forall d
      ensures d in fetched <==> exists i :: 0 <= i < |infos| && FetchOne(remote, infos[i]) == Ok(d)
    {
      FetchScheduledMember(remote, infos, schedule, d);
      if exists i :: 0 <= i < |infos| && FetchOne(remote, infos[i]) == Ok(d) {
        var i :| 0 <= i < |infos| && FetchOne(remote, infos[i]) == Ok(d);
        assert i in schedule;
        var k :| 0 <= k < |schedule| && schedule[k] == i;
        assert FetchOne(remote, infos[schedule[k]]) == Ok(d);
      }
    }
    var p := FetchAll(remote, infos);
    FetchAllInOrder(remote, infos);
    if p.error.None? {
      FetchScheduledLength(remote, infos, schedule);
      forall d
        ensures d in fetched <==> d in p.done
      {
        if d in p.done {
          var i :| 0 <= i < |p.done| && p.done[i] == d;
          assert FetchOne(remote, infos[i]) == Ok(d);
        }
        if d in fetched {
          var i :| 0 <= i < |infos| && FetchOne(remote, infos[i]) == Ok(d);
          assert p.done[i] == d;
        }
      }
    }
  }

  /** The bodies of `get_dashboard(uid)` for the uid list, in order: a uid the
      instance does not know is skipped, a response without `dashboard` raises. */
  function FetchBodies(remote: Remote, uids: seq<Value>): (p: Progress<Value>)
    ensures p.error.None? <==> forall i :: 0 <= i < |uids| && uids[i] in remote.dashboards ==>
                                            Subscript(remote.dashboards[uids[i]], "dashboard").Ok?
    ensures forall b :: b in p.done ==> exists i :: 0 <= i < |uids| && uids[i] in remote.dashboards
                                                   && Subscript(remote.dashboards[uids[i]], "dashboard") == Ok(b)
    decreases |uids|
  {
    if uids == [] then Progress([], None)
    else
      var rest := FetchBodies(remote, uids[1..]);
      assert forall i :: 1 <= i < |uids| ==> uids[1..][i - 1] == uids[i];
      if uids[0] !in remote.dashboards then rest
      else match Subscript(remote.dashboards[uids[0]], "dashboard")
        case Err(e) => Progress([], Some(e))
        case Ok(body) => After([body], rest)
  }

  lemma FetchBodiesUnfold(remote: Remote, uids: seq<Value>)
    requires uids != []
    ensures FetchBodies(remote, uids) ==
            if uids[0] !in remote.dashboards then FetchBodies(remote, uids[1..])
            else match Subscript(remote.dashboards[uids[0]], "dashboard")
              case Err(e) => Progress([], Some(e))
              case Ok(body) => After([body], FetchBodies(remote, uids[1..]))
  {
  }

  /** Bodies come in uid order, and a later uid is fetched only when the earlier ones raised nothing. */
  lemma {:induction false} FetchBodiesAppend(remote: Remote, a: seq<Value>, b: seq<Value>)
    ensures FetchBodies(remote, a + b) ==
            if FetchBodies(remote, a).error.Some? then FetchBodies(remote, a)
            else After(FetchBodies(remote, a).done, FetchBodies(remote, b))
    decreases |a|
  {
    if a == [] {
      assert a + b == b;
    } else {
      assert (a + b)[0] == a[0] && (a + b)[1..] == a[1..] + b;
      FetchBodiesAppend(remote, a[1..], b);
    }
  }

  /** `self.concurrency is None or self.concurrency <= 1`. */
  predicate Sequential(concurrency: Option<int>)
  {
    concurrency.None? || concurrency.value <= 1
  }

  /** The first phase of `scan_dashboards` completed: the uid list was fetched
      without an exception, or the dashboard listing arrived. */
  predicate Listed(remote: Remote, uids: Option<seq<Value>>)
  {
    match uids
    case Some(us) => FetchBodies(remote, us).error.None?
    case None => remote.listing.Ok?
  }

  // ---------------------------------------------------------------------------
  // replace

  /** The commit message a replacement is saved with. */
  function ReplaceMessage(expression: string, replacement: string): string
  {
    "grafana-wtf: Replaced \"" + expression + "\" by \"" + replacement + "\""
  }

  /**
   * One dashboard of `replace`: `Ok(None)` when the substitution leaves its JSON
   * text unchanged (the log line then reads `dashboard.dashboard.uid`), otherwise
   * the POST that saves the parsed new text with the commit message. `dumps` and
   * `loads` are `json.dumps` and `json.loads`.
   */
  function ReplaceOne(remote: Remote, expression: string, replacement: string,
                      dumps: Value -> string, loads: string -> Result<Value>, dashboard: Value): Result<Option<Monkey.Post>>
  {
    var before := dumps(dashboard);
    var after := Text.Replace(before, expression, replacement);
    if before == after then
      match Model.AttrPath(dashboard, "dashboard", "uid")
      case Err(e) => Err(e)
      case Ok(_) => Ok(None)
    else
      match loads(after)
      case Err(e) => Err(e)
      case Ok(loaded) =>
        if !loaded.Object? then Err(TypeError)
        else
          var payload := Object(Store(loaded.fields, "message", Str(ReplaceMessage(expression, replacement))));
          match Monkey.UpdateDashboard(payload)
          case Err(e) => Err(e)
          case Ok(post) => if post.body in remote.rejected then Err(ClientError) else Ok(Some(post))
  }

  /** A loop over items whose step either raises, skips the item, or yields one
      result: the results in order, up to the first exception. */
  function Sweep<T>(step: Value -> Result<Option<T>>, items: seq<Value>): Progress<T>
    decreases |items|
  {
    if items == [] then Progress([], None)
    else match step(items[0])
      case Err(e) => Progress([], Some(e))
      case Ok(None) => Sweep(step, items[1..])
      case Ok(Some(x)) => After([x], Sweep(step, items[1..]))
  }

  /** The items that satisfy `keep`, in order. */
  function Select(keep: Value -> bool, items: seq<Value>): (r: seq<Value>)
    decreases |items|
  {
    if items == [] then []
    else (if keep(items[0]) then [items[0]] else []) + Select(keep, items[1..])
  }

  /** An item is selected exactly when it is one of the items and satisfies `keep`. */
  lemma {:induction false} SelectMembers(keep: Value -> bool, items: seq<Value>)
    ensures forall d :: d in Select(keep, items) <==> d in items && keep(d)
    decreases |items|
  {
    if items != [] {
      SelectMembers(keep, items[1..]);
      assert items == [items[0]] + items[1..];
    }
  }

  /** When a sweep raises nothing and its step yields a result exactly for the
      items `keep` selects, it yields one result per selected item, in order. */
  lemma {:induction false} SweepSelects<T>(step: Value -> Result<Option<T>>, keep: Value -> bool, items: seq<Value>)
    requires Sweep(step, items).error.None?
    requires forall d :: d in items && step(d).Ok? ==> (step(d).value.Some? <==> keep(d))
    ensures |Sweep(step, items).done| == |Select(keep, items)|
    ensures forall i :: 0 <= i < |Select(keep, items)| ==> step(Select(keep, items)[i]) == Ok(Some(Sweep(step, items).done[i]))
    decreases |items|
  {
    if items != [] {
      assert items[0] in items;
      forall d | d in items[1..] ensures d in items { }
      SweepSelects(step, keep, items[1..]);
      var rest := Sweep(step, items[1..]);
      var restSelected := Select(keep, items[1..]);
      if keep(items[0]) {
        var done := [step(items[0]).value.value] + rest.done;
        var selected := [items[0]] + restSelected;
        assert Sweep(step, items).done == done;
        assert Select(keep, items) == selected;
        forall i | 0 <= i < |selected| ensures step(selected[i]) == Ok(Some(done[i]))
        {
          if i > 0 {
            assert selected[i] == restSelected[i - 1] && done[i] == rest.done[i - 1];
          }
        }
      } else {
        assert Select(keep, items) == restSelected;
      }
    }
  }

  /** The step of `replace` for one dashboard. */
  function ReplaceStep(remote: Remote, expression: string, replacement: string,
                       dumps: Value -> string, loads: string -> Result<Value>): Value -> Result<Option<Monkey.Post>>
  {
    d => ReplaceOne(remote, expression, replacement, dumps, loads, d)
  }

  /** `replace` over the dashboards, in order, until one raises. */
  function ReplaceAll(remote: Remote, expression: string, replacement: string,
                      dumps: Value -> string, loads: string -> Result<Value>, dashboards: seq<Value>): Progress<Monkey.Post>
  {
    Sweep(ReplaceStep(remote, expression, replacement, dumps, loads), dashboards)
  }

  lemma ReplaceAllUnfold(remote: Remote, expression: string, replacement: string,
                         dumps: Value -> string, loads: string -> Result<Value>, dashboards: seq<Value>)
    requires dashboards != []
    ensures ReplaceAll(remote, expression, replacement, dumps, loads, dashboards) ==
            match ReplaceOne(remote, expression, replacement, dumps, loads, dashboards[0])
            case Err(e) => Progress([], Some(e))
            case Ok(None) => ReplaceAll(remote, expression, replacement, dumps, loads, dashboards[1..])
            case Ok(Some(post)) => After([post], ReplaceAll(remote, expression, replacement, dumps, loads, dashboards[1..]))
  {
  }

  /** A dashboard is skipped exactly when the expression does not occur in its
      JSON text or is replaced by itself. */
  lemma ReplaceSkipsUnchanged(remote: Remote, expression: string, replacement: string,
                              dumps: Value -> string, loads: string -> Result<Value>, dashboard: Value)
    requires ReplaceOne(remote, expression, replacement, dumps, loads, dashboard).Ok?
    ensures ReplaceOne(remote, expression, replacement, dumps, loads, dashboard).value.None?
            <==> !Text.Contains(dumps(dashboard), expression) || expression == replacement
  {
    Text.ReplaceUnchangedIff(dumps(dashboard), expression, replacement);
  }

  /** A changed dashboard is saved to the dashboard path with the commit message,
      and with every other key of the new text as parsed, `folderId` aside. */
  lemma ReplacePostCarriesMessage(remote: Remote, expression: string, replacement: string,
                                  dumps: Value -> string, loads: string -> Result<Value>, dashboard: Value)
    requires ReplaceOne(remote, expression, replacement, dumps, loads, dashboard).Ok?
    requires ReplaceOne(remote, expression, replacement, dumps, loads, dashboard).value.Some?
    ensures var post := ReplaceOne(remote, expression, replacement, dumps, loads, dashboard).value.value;
            var loaded := loads(Text.Replace(dumps(dashboard), expression, replacement));
            post.path == Monkey.SaveDashboardPath && post.body !in remote.rejected
            && loaded.Ok? && loaded.value.Object? && post.body.Object?
            && Lookup(post.body.fields, "message") == Some(Str(ReplaceMessage(expression, replacement)))
            && forall k :: k != "message" && k != "folderId" ==> Lookup(post.body.fields, k) == Lookup(loaded.value.fields, k)
  {
    var loaded := loads(Text.Replace(dumps(dashboard), expression, replacement)).value;
    var payload := Object(Store(loaded.fields, "message", Str(ReplaceMessage(expression, replacement))));
    Monkey.UpdatePayloadOnlyFolderId(payload);
  }

  /** Whether the substitution changes a dashboard's JSON text. */
  function Changes(expression: string, replacement: string, dumps: Value -> string): Value -> bool
  {
    d => Text.Replace(dumps(d), expression, replacement) != dumps(d)
  }

  /** The dashboards whose JSON text the substitution changes, in order. */
  function Changed(expression: string, replacement: string, dumps: Value -> string, dashboards: seq<Value>): (r: seq<Value>)
  {
    Select(Changes(expression, replacement, dumps), dashboards)
  }

  /** A dashboard is changed exactly when it is one of the dashboards and its text changes. */
  lemma ChangedMembers(expression: string, replacement: string, dumps: Value -> string, dashboards: seq<Value>)
    ensures forall d :: d in Changed(expression, replacement, dumps, dashboards)
                        <==> d in dashboards && Text.Replace(dumps(d), expression, replacement) != dumps(d)
  {
    SelectMembers(Changes(expression, replacement, dumps), dashboards);
  }

  /** A `replace` that raises nothing saves each changed dashboard exactly once, in order. */
  lemma ReplaceSavesEachChanged(remote: Remote, expression: string, replacement: string,
                                dumps: Value -> string, loads: string -> Result<Value>, dashboards: seq<Value>)
    requires ReplaceAll(remote, expression, replacement, dumps, loads, dashboards).error.None?
    ensures var posts := ReplaceAll(remote, expression, replacement, dumps, loads, dashboards).done;
            var changed := Changed(expression, replacement, dumps, dashboards);
            |posts| == |changed|
            && forall i :: 0 <= i < |changed| ==> ReplaceOne(remote, expression, replacement, dumps, loads, changed[i]) == Ok(Some(posts[i]))
  {
    var step := ReplaceStep(remote, expression, replacement, dumps, loads);
    var keep := Changes(expression, replacement, dumps);
    forall d | d in dashboards && step(d).Ok?
      ensures step(d).value.Some? <==> keep(d)
    {
      ReplaceSkipsUnchanged(remote, expression, replacement, dumps, loads, d);
      Text.ReplaceUnchangedIff(dumps(d), expression, replacement);
    }
    SweepSelects(step, keep, dashboards);
  }

  // ---------------------------------------------------------------------------
  // log

  /** The keys of an edit history entry, in order. */
  const LogKeys: seq<string> := ["datetime", "user", "message", "folder", "title", "version", "url"]

  /** One entry of `log`: the revision's creation time, author, message and
      version, the dashboard's folder title (None when absent), title, and its
      URL joined to the instance URL. */
  function RevisionEntry(meta: Value, revision: Value, grafanaUrl: string, resolve: (string, string) -> string): (r: Result<Value>)
    ensures r.Ok? ==> r.value.Object? && Keys(r.value.fields) == LogKeys
    ensures r.Ok? ==> UniqueKeys(r.value.fields)
    ensures r.Ok? ==> Subscript(revision, "created").Ok? && Subscript(meta, "title").Ok? && Subscript(revision, "version").Ok?
    ensures r.Ok? ==> Lookup(r.value.fields, "datetime") == Some(Subscript(revision, "created").value)
                      && Lookup(r.value.fields, "title") == Some(Subscript(meta, "title").value)
                      && Lookup(r.value.fields, "version") == Some(Subscript(revision, "version").value)
    ensures r.Ok? ==> Lookup(r.value.fields, "folder") ==
                      Some(if meta.Object? && Lookup(meta.fields, "folderTitle").Some? then Lookup(meta.fields, "folderTitle").value else Null)
  {
    match Subscript(revision, "created")
    case Err(e) => Err(e)
    case Ok(created) =>
      match Subscript(revision, "createdBy")
      case Err(e) => Err(e)
      case Ok(user) =>
        match Subscript(revision, "message")
        case Err(e) => Err(e)
        case Ok(message) =>
          match DictGet(meta, "folderTitle", Null)
          case Err(e) => Err(e)
          case Ok(folder) =>
            match Subscript(meta, "title")
            case Err(e) => Err(e)
            case Ok(title) =>
              match Subscript(revision, "version")
              case Err(e) => Err(e)
              case Ok(version) =>
                match Subscript(meta, "url")
                case Err(e) => Err(e)
                case Ok(path) =>
                  match Model.UrlJoin(grafanaUrl, path, resolve)
                  case Err(e) => Err(e)
                  case Ok(url) =>
                    var fields := [("datetime", created), ("user", user), ("message", message), ("folder", folder),
                                   ("title", title), ("version", version), ("url", url)];
                    assert Keys(fields) == LogKeys;
                    LookupAt(fields, 0);
                    LookupAt(fields, 3);
                    LookupAt(fields, 4);
                    LookupAt(fields, 5);
                    Ok(Object(fields))
  }

  /** The entries of the revisions of one dashboard, in order, until one raises. */
  function RevisionEntries(meta: Value, revisions: seq<Value>, grafanaUrl: string, resolve: (string, string) -> string): Result<seq<Value>>
    decreases |revisions|
  {
    if revisions == [] then Ok([])
    else match RevisionEntry(meta, revisions[0], grafanaUrl, resolve)
      case Err(e) => Err(e)
      case Ok(entry) => Prepend([entry], RevisionEntries(meta, revisions[1..], grafanaUrl, resolve))
  }

  /** One more revision of a log under way: its entry follows, or its exception ends it. */
  lemma RevisionStep(meta: Value, revisions: seq<Value>, k: nat, grafanaUrl: string, resolve: (string, string) -> string,
                     done: seq<Value>)
    requires k < |revisions|
    requires RevisionEntries(meta, revisions, grafanaUrl, resolve)
             == Prepend(done, RevisionEntries(meta, revisions[k..], grafanaUrl, resolve))
    ensures var entry := RevisionEntry(meta, revisions[k], grafanaUrl, resolve);
            && (entry.Err? ==> RevisionEntries(meta, revisions, grafanaUrl, resolve) == Err(entry.error))
            && (entry.Ok? ==> RevisionEntries(meta, revisions, grafanaUrl, resolve)
                              == Prepend(done + [entry.value], RevisionEntries(meta, revisions[k + 1..], grafanaUrl, resolve)))
  {
    assert revisions[k..][0] == revisions[k] && revisions[k..][1..] == revisions[k + 1..];
    var entry := RevisionEntry(meta, revisions[k], grafanaUrl, resolve);
    if entry.Ok? {
      PrependPrepend(done, [entry.value], RevisionEntries(meta, revisions[k + 1..], grafanaUrl, resolve));
    }
  }

  /** One entry per revision, in order, unless one of them raises. */
  lemma {:induction false} RevisionEntriesAll(meta: Value, revisions: seq<Value>, grafanaUrl: string, resolve: (string, string) -> string)
    ensures RevisionEntries(meta, revisions, grafanaUrl, resolve).Ok?
            <==> forall i :: 0 <= i < |revisions| ==> RevisionEntry(meta, revisions[i], grafanaUrl, resolve).Ok?
    ensures RevisionEntries(meta, revisions, grafanaUrl, resolve).Ok? ==>
              |RevisionEntries(meta, revisions, grafanaUrl, resolve).value| == |revisions|
              && forall i :: 0 <= i < |revisions| ==>
                   RevisionEntries(meta, revisions, grafanaUrl, resolve).value[i] == RevisionEntry(meta, revisions[i], grafanaUrl, resolve).value
    decreases |revisions|
  {
    if revisions != [] {
      RevisionEntriesAll(meta, revisions[1..], grafanaUrl, resolve);
      assert forall i :: 1 <= i < |revisions| ==> revisions[1..][i - 1] == revisions[i];
    }
  }

  /** Whether `log(uid)` looks at a listed dashboard: all of them without a uid,
      otherwise those whose `uid` equals it. */
  function Selected(meta: Value, uid: Option<string>): Result<bool>
  {
    match uid
    case None => Ok(true)
    case Some(u) =>
      match Subscript(meta, "uid")
      case Err(e) => Err(e)
      case Ok(found) => Ok(PyEq(found, Str(u)))
  }

  /** The entries one listed dashboard contributes: one per revision of its
      version history, none when it is not selected. */
  function MetaEntries(remote: Remote, meta: Value, uid: Option<string>, grafanaUrl: string,
                       resolve: (string, string) -> string): Result<seq<Value>>
  {
    match Selected(meta, uid)
    case Err(e) => Err(e)
    case Ok(false) => Ok([])
    case Ok(true) =>
      match Subscript(meta, "id")
      case Err(e) => Err(e)
      case Ok(id) =>
        if id !in remote.versions then Err(ClientError)
        else match PyIter(remote.versions[id])
          case Err(e) => Err(e)
          case Ok(revisions) => RevisionEntries(meta, revisions, grafanaUrl, resolve)
  }

  /** The entries `f` gives for each element, concatenated in order; the
      first exception stops it. */
  function Gather<T, U>(xs: seq<T>, f: T -> Result<seq<U>>): Result<seq<U>>
    decreases |xs|
  {
    if xs == [] then Ok([])
    else match f(xs[0])
      case Err(e) => Err(e)
      case Ok(ys) => Prepend(ys, Gather(xs[1..], f))
  }

  /** The gathered entries of a longer list are those of its parts, one after the other. */
  lemma {:induction false} GatherAppend<T, U>(a: seq<T>, b: seq<T>, f: T -> Result<seq<U>>)
    requires Gather(a, f).Ok?
    ensures Gather(a + b, f) == Prepend(Gather(a, f).value, Gather(b, f))
    decreases |a|
  {
    if a == [] {
      assert a + b == b;
      PrependNothing(Gather(b, f));
    } else {
      assert (a + b)[0] == a[0] && (a + b)[1..] == a[1..] + b;
      GatherAppend(a[1..], b, f);
      PrependPrepend(f(a[0]).value, Gather(a[1..], f).value, Gather(b, f));
    }
  }

  /** One more element of a gather under way: its entries follow, or its exception ends it. */
  lemma GatherStep<T, U>(xs: seq<T>, i: nat, f: T -> Result<seq<U>>, done: seq<U>, more: Result<seq<U>>)
    requires i < |xs| && Gather(xs, f) == Prepend(done, Gather(xs[i..], f)) && more == f(xs[i])
    ensures more.Err? ==> Gather(xs, f) == Err(more.error)
    ensures more.Ok? ==> Gather(xs, f) == Prepend(done + more.value, Gather(xs[i + 1..], f))
  {
    assert xs[i..][0] == xs[i] && xs[i..][1..] == xs[i + 1..];
    if more.Ok? {
      PrependPrepend(done, more.value, Gather(xs[i + 1..], f));
    }
  }

  /** `MetaEntries` for one engine and uid, as a function of the listed dashboard. */
  function MetaFinder(remote: Remote, uid: Option<string>, grafanaUrl: string,
                      resolve: (string, string) -> string): (f: Value -> Result<seq<Value>>)
    ensures forall meta :: f(meta) == MetaEntries(remote, meta, uid, grafanaUrl, resolve)
  {
    meta => MetaEntries(remote, meta, uid, grafanaUrl, resolve)
  }

  /** `log(uid)`: the entries of the listed dashboards, in list order. */
  function LogEntries(remote: Remote, metas: seq<Value>, uid: Option<string>, grafanaUrl: string,
                      resolve: (string, string) -> string): Result<seq<Value>>
  {
    Gather(metas, MetaFinder(remote, uid, grafanaUrl, resolve))
  }

  /** A uid no listed dashboard has gives no entries. */
  lemma {:induction false} LogUnknownUid(remote: Remote, metas: seq<Value>, uid: string, grafanaUrl: string,
                                         resolve: (string, string) -> string)
    requires forall i :: 0 <= i < |metas| ==> Subscript(metas[i], "uid").Ok? && !PyEq(Subscript(metas[i], "uid").value, Str(uid))
    ensures LogEntries(remote, metas, Some(uid), grafanaUrl, resolve) == Ok([])
    decreases |metas|
  {
    if metas != [] {
      assert forall i :: 1 <= i < |metas| ==> metas[1..][i - 1] == metas[i];
      LogUnknownUid(remote, metas[1..], uid, grafanaUrl, resolve);
      assert MetaEntries(remote, metas[0], Some(uid), grafanaUrl, resolve) == Ok([]);
      PrependNothing(LogEntries(remote, metas[1..], Some(uid), grafanaUrl, resolve));
    }
  }

  /** The entries of a longer list are those of its parts, one after the other. */
  lemma LogEntriesAppend(remote: Remote, a: seq<Value>, b: seq<Value>, uid: Option<string>,
                         grafanaUrl: string, resolve: (string, string) -> string)
    requires LogEntries(remote, a, uid, grafanaUrl, resolve).Ok?
    ensures LogEntries(remote, a + b, uid, grafanaUrl, resolve)
            == Prepend(LogEntries(remote, a, uid, grafanaUrl, resolve).value, LogEntries(remote, b, uid, grafanaUrl, resolve))
  {
    GatherAppend(a, b, MetaFinder(remote, uid, grafanaUrl, resolve));
  }


  // ---------------------------------------------------------------------------
  // datasource_breakdown

  /** `list(map(dashboard_by_uid.get, uids))`, None standing for an unknown uid. */
  function DashboardsOf(uids: seq<string>, byUid: seq<(string, Value)>): (ds: seq<Value>)
    ensures |ds| == |uids|
    ensures forall i :: 0 <= i < |uids| ==> ds[i] == (if Lookup(byUid, uids[i]).Some? then Lookup(byUid, uids[i]).value else Null)
  {
    seq(|uids|, i requires 0 <= i < |uids| => if Lookup(byUid, uids[i]).Some? then Lookup(byUid, uids[i]).value else Null)
  }

  /** The exploration item of one data source name: the data source and the
      dashboards indexed as using it. */
  function BreakdownItem(name: string, byName: seq<(string, Value)>, byUid: seq<(string, Value)>,
                         index: seq<(string, seq<string>)>, grafanaUrl: string): Model.DatasourceExplorationItem
  {
    Model.DatasourceExplorationItem(
      if Lookup(byName, name).Some? then Lookup(byName, name).value else Null,
      DashboardsOf(Indexing.ListOf(index, name), byUid), grafanaUrl)
  }

  /** Whether an item's compact form can be built. */
  predicate ItemOk(item: Model.DatasourceExplorationItem, resolve: (string, string) -> string)
  {
    Model.DatasourceShort(item.datasource).Ok? && Model.AllOk(Model.DashboardShorts(item.usedIn, item.grafanaUrl, resolve))
  }

  /** The compact form of an item (None where it cannot be built). */
  function ItemValue(item: Model.DatasourceExplorationItem, resolve: (string, string) -> string): Value
  {
    if ItemOk(item, resolve) then
      Model.Compact("datasource", Model.DatasourceShort(item.datasource).value, "dashboards",
                    Model.Values(Model.DashboardShorts(item.usedIn, item.grafanaUrl, resolve)))
    else Null
  }

  /** The names whose index list is non-empty (`used`) or empty, in order. */
  function Partition(names: seq<string>, index: seq<(string, seq<string>)>, used: bool): (r: seq<string>)
    ensures |r| <= |names|
  {
    if names == [] then []
    else
      var last := names[|names| - 1];
      Partition(names[..|names| - 1], index, used) + (if (Indexing.ListOf(index, last) != []) == used then [last] else [])
  }

  /** A name is listed exactly when it is one of the names and its index list's emptiness matches. */
  lemma {:induction false} PartitionMembers(names: seq<string>, index: seq<(string, seq<string>)>, used: bool)
    ensures forall n :: n in Partition(names, index, used) <==> n in names && (Indexing.ListOf(index, n) != []) == used
    decreases |names|
  {
    if names != [] {
      var init := names[..|names| - 1];
      PartitionMembers(init, index, used);
      assert names == init + [names[|names| - 1]];
    }
  }

  /** The compact forms of the items of the names, in order. */
  function Items(names: seq<string>, byName: seq<(string, Value)>, byUid: seq<(string, Value)>,
                 index: seq<(string, seq<string>)>, grafanaUrl: string, resolve: (string, string) -> string): (vs: seq<Value>)
    ensures |vs| == |names|
    ensures forall i :: 0 <= i < |names| ==> vs[i] == ItemValue(BreakdownItem(names[i], byName, byUid, index, grafanaUrl), resolve)
  {
    seq(|names|, i requires 0 <= i < |names| => ItemValue(BreakdownItem(names[i], byName, byUid, index, grafanaUrl), resolve))
  }

  /** One more name adds its compact item to the list it belongs to. */
  lemma ItemsStep(names: seq<string>, i: nat, used: bool, byName: seq<(string, Value)>, byUid: seq<(string, Value)>,
                  index: seq<(string, seq<string>)>, grafanaUrl: string, resolve: (string, string) -> string)
    requires i < |names|
    ensures Items(Partition(names[..i + 1], index, used), byName, byUid, index, grafanaUrl, resolve)
            == Items(Partition(names[..i], index, used), byName, byUid, index, grafanaUrl, resolve)
               + (if (Indexing.ListOf(index, names[i]) != []) == used
                  then [ItemValue(BreakdownItem(names[i], byName, byUid, index, grafanaUrl), resolve)] else [])
  {
    assert names[..i + 1][..i] == names[..i];
    var front := Partition(names[..i], index, used);
    if (Indexing.ListOf(index, names[i]) != []) == used {
      assert Partition(names[..i + 1], index, used) == front + [names[i]];
      var all := Items(front + [names[i]], byName, byUid, index, grafanaUrl, resolve);
      assert all == Items(front, byName, byUid, index, grafanaUrl, resolve)
                    + [ItemValue(BreakdownItem(names[i], byName, byUid, index, grafanaUrl), resolve)];
    } else {
      assert Partition(names[..i + 1], index, used) == front;
    }
  }

  /** Every name's compact item can be built. */
  predicate AllItemsOk(names: seq<string>, byName: seq<(string, Value)>, byUid: seq<(string, Value)>,
                       index: seq<(string, seq<string>)>, grafanaUrl: string, resolve: (string, string) -> string)
    decreases |names|
  {
    names == [] ||
    (AllItemsOk(names[..|names| - 1], byName, byUid, index, grafanaUrl, resolve)
     && ItemOk(BreakdownItem(names[|names| - 1], byName, byUid, index, grafanaUrl), resolve))
  }

  /** `AllItemsOk` holds exactly when each name's item is buildable. */
  lemma {:induction false} AllItemsOkEach(names: seq<string>, byName: seq<(string, Value)>, byUid: seq<(string, Value)>,
                                          index: seq<(string, seq<string>)>, grafanaUrl: string, resolve: (string, string) -> string)
    ensures AllItemsOk(names, byName, byUid, index, grafanaUrl, resolve)
            <==> forall n :: n in names ==> ItemOk(BreakdownItem(n, byName, byUid, index, grafanaUrl), resolve)
    decreases |names|
  {
    if names != [] {
      var init := names[..|names| - 1];
      AllItemsOkEach(init, byName, byUid, index, grafanaUrl, resolve);
      assert names == init + [names[|names| - 1]];
    }
  }

  /** One more buildable item keeps every item of the longer prefix buildable. */
  lemma AllItemsOkSnoc(names: seq<string>, i: nat, byName: seq<(string, Value)>, byUid: seq<(string, Value)>,
                       index: seq<(string, seq<string>)>, grafanaUrl: string, resolve: (string, string) -> string)
    requires i < |names|
    requires AllItemsOk(names[..i], byName, byUid, index, grafanaUrl, resolve)
    requires ItemOk(BreakdownItem(names[i], byName, byUid, index, grafanaUrl), resolve)
    ensures AllItemsOk(names[..i + 1], byName, byUid, index, grafanaUrl, resolve)
  {
    assert names[..i + 1][..i] == names[..i];
  }

  /** The compact form of one name's item, or the error that stops the loop. */
  method CompactItem(name: string, byName: seq<(string, Value)>, byUid: seq<(string, Value)>,
                     index: seq<(string, seq<string>)>, grafanaUrl: string, resolve: (string, string) -> string)
    returns (result: Result<Value>)
    ensures result.Ok? <==> ItemOk(BreakdownItem(name, byName, byUid, index, grafanaUrl), resolve)
    ensures result.Ok? ==> result.value == ItemValue(BreakdownItem(name, byName, byUid, index, grafanaUrl), resolve)
  {
    var item := BreakdownItem(name, byName, byUid, index, grafanaUrl);
    result := item.FormatCompact(resolve);
  }

  /** `sorted(datasource_by_name)`. */
  function SortedNames(byName: seq<(string, Value)>): seq<string>
  {
    Order.SortedDistinct(Keys(byName))
  }

  /** Every name lands in exactly one of the two lists, in `used` exactly when
      its index list is non-empty, and both lists keep ascending order. */
  lemma {:induction false} BreakdownPartition(names: seq<string>, index: seq<(string, seq<string>)>)
    requires Order.StrictlySorted(names)
    ensures Order.StrictlySorted(Partition(names, index, true)) && Order.StrictlySorted(Partition(names, index, false))
    ensures forall n :: n in names <==> n in Partition(names, index, true) || n in Partition(names, index, false)
    ensures forall n :: !(n in Partition(names, index, true) && n in Partition(names, index, false))
    decreases |names|
  {
    if names != [] {
      var init := names[..|names| - 1];
      var last := names[|names| - 1];
      assert Order.StrictlySorted(init);
      BreakdownPartition(init, index);
      PartitionMembers(init, index, true);
      PartitionMembers(init, index, false);
      PartitionMembers(names, index, true);
      PartitionMembers(names, index, false);
      forall used: bool
        ensures Order.StrictlySorted(Partition(names, index, used))
      {
        var front := Partition(init, index, used);
        var r := Partition(names, index, used);
        if (Indexing.ListOf(index, last) != []) == used {
          assert r == front + [last];
          forall i, j | 0 <= i < j < |r|
            ensures Order.Less(r[i], r[j])
          {
            if j == |r| - 1 {
              assert r[i] == front[i] && front[i] in init;
              var k :| 0 <= k < |init| && init[k] == r[i];
              assert names[k] == r[i];
            } else {
              assert r[i] == front[i] && r[j] == front[j];
            }
          }
        }
      }
    }
  }

  /** The loop of `datasource_breakdown` over the indexer's dicts: one compact
      item per data source name in ascending order, under `used` when its index
      list is non-empty and under `unused` otherwise. */
  method BreakdownItems(byName: seq<(string, Value)>, byUid: seq<(string, Value)>, index: seq<(string, seq<string>)>,
                        grafanaUrl: string, resolve: (string, string) -> string) returns (r: Result<Value>)
    ensures r.Ok? <==> forall n :: n in Keys(byName) ==> ItemOk(BreakdownItem(n, byName, byUid, index, grafanaUrl), resolve)
    ensures r.Ok? ==>
      var names := SortedNames(byName);
      r.value == Object([("used", List(Items(Partition(names, index, true), byName, byUid, index, grafanaUrl, resolve))),
                         ("unused", List(Items(Partition(names, index, false), byName, byUid, index, grafanaUrl, resolve)))])
  {
    var names := SortedNames(byName);
    var used, unused := [], [];
    var i := 0;
    while i < |names|
      invariant 0 <= i <= |names|
      invariant AllItemsOk(names[..i], byName, byUid, index, grafanaUrl, resolve)
      invariant used == Items(Partition(names[..i], index, true), byName, byUid, index, grafanaUrl, resolve)
      invariant unused == Items(Partition(names[..i], index, false), byName, byUid, index, grafanaUrl, resolve)
    {
      var name := names[i];
      ItemsStep(names, i, true, byName, byUid, index, grafanaUrl, resolve);
      ItemsStep(names, i, false, byName, byUid, index, grafanaUrl, resolve);
      var result := CompactItem(name, byName, byUid, index, grafanaUrl, resolve);
      if result.Err? {
        assert name in Keys(byName);
        return Err(result.error);
      }
      AllItemsOkSnoc(names, i, byName, byUid, index, grafanaUrl, resolve);
      if Indexing.ListOf(index, name) != [] {
        used := used + [result.value];
      } else {
        unused := unused + [result.value];
      }
      i := i + 1;
    }
    assert names[..i] == names;
    AllItemsOkEach(names, byName, byUid, index, grafanaUrl, resolve);
    r := Ok(Object([("used", List(used)), ("unused", List(unused))]));
  }

  // ---------------------------------------------------------------------------
  // The engine

  class GrafanaSearch {
    const grafanaUrl: string
    /** The instance the engine talks to. */
    const remote: Remote
    var concurrency: Option<int>
    /** `self.data`: what the scans collected. */
    var datasources: seq<Value>
    var dashboardList: seq<Value>
    var dashboards: seq<Value>
    /** The dashboard saves the instance accepted, in order. */
    var updates: seq<Monkey.Post>

    /** A fresh engine: nothing scanned yet, five concurrent fetches. */
    constructor (grafanaUrl: string, remote: Remote)
      ensures this.grafanaUrl == grafanaUrl && this.remote == remote
      ensures concurrency == Some(5)
      ensures datasources == [] && dashboardList == [] && dashboards == [] && updates == []
    {
      this.grafanaUrl := grafanaUrl;
      this.remote := remote;
      concurrency := Some(5);
      datasources, dashboardList, dashboards := [], [], [];
      updates := [];
    }

    /** `enable_concurrency(n)`: later dashboard fetches run `n` at a time. */
    method EnableConcurrency(n: int)
      modifies this
      ensures concurrency == Some(n)
      ensures datasources == old(datasources) && dashboardList == old(dashboardList)
      ensures dashboards == old(dashboards) && updates == old(updates)
    {
      concurrency := Some(n);
    }

    /** `search_items(expression, items, results)`: appends the hits, item by item. */
    method SearchItems(expression: Option<string>, items: seq<Value>) returns (results: seq<Hit>)
      ensures results == SearchHits(expression, items)
    {
      results := [];
      var i := 0;
      while i < |items|
        invariant 0 <= i <= |items|
        invariant results == SearchHits(expression, items[..i])
      {
        var item := items[i];
        assert items[..i + 1] == items[..i] + [item];
        FlatMapSnoc(items[..i], item, HitFinder(expression));
        match expression {
          case None =>
            results := results + [Hit(None, item)];
          case Some(e) =>
            var matches := PathFinder.FindWithFastReject(e, item, true);
            if matches != [] {
              results := results + [Hit(Some(matches), item)];
            }
        }
        i := i + 1;
      }
      assert items[..i] == items;
    }

    /** `search(expression)`: the hits among the data sources, then among the dashboards. */
    method Search(expression: Option<string>) returns (results: SearchResults)
      ensures results == SearchResults(SearchHits(expression, datasources), [], SearchHits(expression, dashboards))
    {
      var ds := SearchItems(expression, datasources);
      var db := SearchItems(expression, dashboards);
      results := SearchResults(ds, [], db);
    }

    /** `scan_datasources()`: the data source list replaces the scanned one;
        after a client error nothing changes and None is returned. */
    method ScanDatasources() returns (r: Option<seq<Value>>)
      modifies this
      ensures remote.datasources.Ok? ==> datasources == remote.datasources.value && r == Some(datasources)
      ensures remote.datasources.Err? ==> datasources == old(datasources) && r == None
      ensures dashboardList == old(dashboardList) && dashboards == old(dashboards)
      ensures concurrency == old(concurrency) && updates == old(updates)
    {
      match remote.datasources {
        case Ok(ds) =>
          datasources := ds;
          r := Some(ds);
        case Err(_) =>
          r := None;
      }
    }

    /** `fetch_dashboards()`: appends the dashboard of each listed entry, in
        order; the first exception stops it. */
    method FetchDashboards() returns (r: Result<Unit>)
      modifies this
      ensures dashboards == old(dashboards) + FetchAll(remote, dashboardList).done
      ensures r.Err? <==> FetchAll(remote, dashboardList).error.Some?
      ensures r.Err? ==> r.error == FetchAll(remote, dashboardList).error.value
      ensures dashboardList == old(dashboardList) && datasources == old(datasources)
      ensures concurrency == old(concurrency) && updates == old(updates)
    {
      var infos := dashboardList;
      ghost var fetched: seq<Value> := [];
      var i := 0;
      assert infos[0..] == infos;
      AfterNothing(FetchAll(remote, infos));
      while i < |infos|
        invariant 0 <= i <= |infos|
        invariant dashboardList == infos && datasources == old(datasources)
        invariant concurrency == old(concurrency) && updates == old(updates)
        invariant dashboards == old(dashboards) + fetched
        invariant FetchAll(remote, infos) == After(fetched, FetchAll(remote, infos[i..]))
      {
        assert infos[i..][0] == infos[i] && infos[i..][1..] == infos[i + 1..];
        FetchAllUnfold(remote, infos[i..]);
        var dashboard := FetchOne(remote, infos[i]);
        if dashboard.Err? {
          return Err(dashboard.error);
        }
        AfterAfter(fetched, [dashboard.value], FetchAll(remote, infos[i + 1..]));
        dashboards := dashboards + [dashboard.value];
        fetched := fetched + [dashboard.value];
        i := i + 1;
      }
      assert fetched + [] == fetched;
      r := Ok(Unit);
    }

    /** `fetch_dashboards_parallel()`: the fetches run on worker threads and
        append in the order they complete (`schedule`); exceptions stay in the
        workers. */
    method FetchDashboardsParallel(schedule: seq<nat>)
      requires IsSchedule(schedule, |dashboardList|)
      modifies this
      ensures dashboardList == old(dashboardList) && datasources == old(datasources)
      ensures concurrency == old(concurrency) && updates == old(updates)
      ensures dashboards == old(dashboards) + FetchScheduled(remote, dashboardList, schedule)
    {
      var k := 0;
      while k < |schedule|
        invariant 0 <= k <= |schedule|
        invariant dashboardList == old(dashboardList) && datasources == old(datasources)
        invariant concurrency == old(concurrency) && updates == old(updates)
        invariant dashboards == old(dashboards) + FetchScheduled(remote, dashboardList, schedule[..k])
      {
        assert schedule[..k + 1][..k] == schedule[..k];
        var dashboard := FetchOne(remote, dashboardList[schedule[k]]);
        if dashboard.Ok? {
          dashboards := dashboards + [dashboard.value];
        }
        k := k + 1;
      }
      assert schedule[..k] == schedule;
    }

    /**
     * `scan_dashboards(uids)`: with a uid list, appends the body of each uid
     * the instance knows to the dashboard list; without one, the listing
     * replaces it, and a failed listing ends the scan with None. Then every
     * listed dashboard is fetched, one by one or in parallel. `schedule(n)` is
     * the completion order of `n` parallel fetches.
     */
    method ScanDashboards(uids: Option<seq<Value>>, schedule: nat -> seq<nat>) returns (r: Result<Option<seq<Value>>>)
      requires forall n: nat :: IsSchedule(schedule(n), n)
      modifies this
      ensures datasources == old(datasources) && concurrency == old(concurrency) && updates == old(updates)
      ensures uids.Some? ==> dashboardList == old(dashboardList) + FetchBodies(remote, uids.value).done
      ensures uids.Some? && FetchBodies(remote, uids.value).error.Some? ==>
                r == Err(FetchBodies(remote, uids.value).error.value) && dashboards == old(dashboards)
      ensures uids.None? && remote.listing.Err? ==>
                r == Ok(None) && dashboardList == old(dashboardList) && dashboards == old(dashboards)
      ensures uids.None? && remote.listing.Ok? ==> dashboardList == remote.listing.value
      ensures Listed(remote, uids) && Sequential(concurrency) ==>
                dashboards == old(dashboards) + FetchAll(remote, dashboardList).done
                && r == (if FetchAll(remote, dashboardList).error.Some? then Err(FetchAll(remote, dashboardList).error.value)
                         else Ok(Some(dashboards)))
      ensures Listed(remote, uids) && !Sequential(concurrency) ==>
                dashboards == old(dashboards) + FetchScheduled(remote, dashboardList, schedule(|dashboardList|))
                && r == Ok(Some(dashboards))
    {
      if uids.Some? {
        var error := ListDashboards(uids.value);
        if error.Some? {
          return Err(error.value);
        }
      } else {
        if remote.listing.Err? {
          return Ok(None);
        }
        dashboardList := remote.listing.value;
      }
      if Sequential(concurrency) {
        var fetched := FetchDashboards();
        if fetched.Err? {
          return Err(fetched.error);
        }
      } else {
        FetchDashboardsParallel(schedule(|dashboardList|));
      }
      r := Ok(Some(dashboards));
    }

    /** The loop of `scan_dashboards` over given uids: appends each known
        dashboard's body to `dashboard_list`, in order; a body that cannot be
        read stops it. */
    method ListDashboards(all: seq<Value>) returns (error: Option<Error>)
      modifies this
      ensures dashboardList == old(dashboardList) + FetchBodies(remote, all).done
      ensures error == FetchBodies(remote, all).error
      ensures datasources == old(datasources) && concurrency == old(concurrency) && updates == old(updates)
      ensures dashboards == old(dashboards)
    {
      ghost var added: seq<Value> := [];
      var i := 0;
      assert all[0..] == all;
      AfterNothing(FetchBodies(remote, all));
      while i < |all|
        invariant 0 <= i <= |all|
        invariant datasources == old(datasources) && concurrency == old(concurrency) && updates == old(updates)
        invariant dashboards == old(dashboards)
        invariant dashboardList == old(dashboardList) + added
        invariant FetchBodies(remote, all) == After(added, FetchBodies(remote, all[i..]))
      {
        assert all[i..][0] == all[i] && all[i..][1..] == all[i + 1..];
        FetchBodiesUnfold(remote, all[i..]);
        var uid := all[i];
        if uid in remote.dashboards {
          var body := Subscript(remote.dashboards[uid], "dashboard");
          if body.Err? {
            return Some(body.error);
          }
          AfterAfter(added, [body.value], FetchBodies(remote, all[i + 1..]));
          dashboardList := dashboardList + [body.value];
          added := added + [body.value];
        }
        i := i + 1;
      }
      assert added + [] == added;
      return None;
    }

    /** `replace(expression, replacement)`: saves, in order, every scanned
        dashboard whose JSON text the substitution changes; the first exception
        stops it. */
    method Replace(expression: string, replacement: string, dumps: Value -> string, loads: string -> Result<Value>)
      returns (r: Result<Unit>)
      modifies this
      ensures updates == old(updates) + ReplaceAll(remote, expression, replacement, dumps, loads, dashboards).done
      ensures r.Err? <==> ReplaceAll(remote, expression, replacement, dumps, loads, dashboards).error.Some?
      ensures r.Err? ==> r.error == ReplaceAll(remote, expression, replacement, dumps, loads, dashboards).error.value
      ensures dashboards == old(dashboards) && dashboardList == old(dashboardList)
      ensures datasources == old(datasources) && concurrency == old(concurrency)
    {
      var all := dashboards;
      ghost var saved: seq<Monkey.Post> := [];
      var i := 0;
      assert all[0..] == all;
      AfterNothing(ReplaceAll(remote, expression, replacement, dumps, loads, all));
      while i < |all|
        invariant 0 <= i <= |all|
        invariant dashboards == all && dashboardList == old(dashboardList)
        invariant datasources == old(datasources) && concurrency == old(concurrency)
        invariant updates == old(updates) + saved
        invariant ReplaceAll(remote, expression, replacement, dumps, loads, all)
                  == After(saved, ReplaceAll(remote, expression, replacement, dumps, loads, all[i..]))
      {
        assert all[i..][0] == all[i] && all[i..][1..] == all[i + 1..];
        ReplaceAllUnfold(remote, expression, replacement, dumps, loads, all[i..]);
        var dashboard := all[i];
        var before := dumps(dashboard);
        var after := Text.Replace(before, expression, replacement);
        if before == after {
          var uid := Model.AttrPath(dashboard, "dashboard", "uid");
          if uid.Err? {
            return Err(uid.error);
          }
        } else {
          var loaded := loads(after);
          if loaded.Err? {
            return Err(loaded.error);
          }
          if !loaded.value.Object? {
            return Err(TypeError);
          }
          var payload := Object(Store(loaded.value.fields, "message", Str(ReplaceMessage(expression, replacement))));
          var post := Monkey.UpdateDashboard(payload);
          if post.Err? {
            return Err(post.error);
          }
          if post.value.body in remote.rejected {
            return Err(ClientError);
          }
          AfterAfter(saved, [post.value], ReplaceAll(remote, expression, replacement, dumps, loads, all[i + 1..]));
          updates := updates + [post.value];
          saved := saved + [post.value];
        }
        i := i + 1;
      }
      assert saved + [] == saved;
      r := Ok(Unit);
    }

    /** The entries of one dashboard's revisions, in order. */
    method RevisionLog(meta: Value, revisions: seq<Value>, resolve: (string, string) -> string) returns (r: Result<seq<Value>>)
      ensures r == RevisionEntries(meta, revisions, grafanaUrl, resolve)
    {
      var entries: seq<Value> := [];
      var k := 0;
      assert revisions[0..] == revisions;
      PrependNothing(RevisionEntries(meta, revisions, grafanaUrl, resolve));
      while k < |revisions|
        invariant 0 <= k <= |revisions|
        invariant RevisionEntries(meta, revisions, grafanaUrl, resolve)
                  == Prepend(entries, RevisionEntries(meta, revisions[k..], grafanaUrl, resolve))
      {
        var entry := RevisionEntry(meta, revisions[k], grafanaUrl, resolve);
        RevisionStep(meta, revisions, k, grafanaUrl, resolve, entries);
        if entry.Err? {
          return Err(entry.error);
        }
        entries := entries + [entry.value];
        k := k + 1;
      }
      assert entries + [] == entries;
      r := Ok(entries);
    }

    /** The entries of one listed dashboard: none unless it is selected,
        otherwise one per revision of its version history. */
    method MetaLog(meta: Value, uid: Option<string>, resolve: (string, string) -> string) returns (r: Result<seq<Value>>)
      ensures r == MetaEntries(remote, meta, uid, grafanaUrl, resolve)
    {
      var selected := Selected(meta, uid);
      if selected.Err? {
        return Err(selected.error);
      }
      if !selected.value {
        return Ok([]);
      }
      var id := Subscript(meta, "id");
      if id.Err? {
        return Err(id.error);
      }
      if id.value !in remote.versions {
        return Err(ClientError);
      }
      var revisions := PyIter(remote.versions[id.value]);
      if revisions.Err? {
        return Err(revisions.error);
      }
      r := RevisionLog(meta, revisions.value, resolve);
    }

    /** `log(uid)`: for each listed dashboard (only those with that uid when one
        is given), one entry per revision of its version history. */
    method Log(uid: Option<string>, resolve: (string, string) -> string) returns (r: Result<seq<Value>>)
      ensures r == LogEntries(remote, dashboardList, uid, grafanaUrl, resolve)
    {
      var metas := dashboardList;
      ghost var f := MetaFinder(remote, uid, grafanaUrl, resolve);
      var entries: seq<Value> := [];
      var i := 0;
      assert metas[0..] == metas;
      PrependNothing(Gather(metas, f));
      while i < |metas|
        invariant 0 <= i <= |metas|
        invariant Gather(metas, f) == Prepend(entries, Gather(metas[i..], f))
      {
        var more := MetaLog(metas[i], uid, resolve);
        GatherStep(metas, i, f, entries, more);
        if more.Err? {
          return Err(more.error);
        }
        entries := entries + more.value;
        i := i + 1;
      }
      assert entries + [] == entries;
      r := Ok(entries);
    }

    /**
     * `datasource_breakdown()`: scans the dashboards and the data sources,
     * indexes them, and sorts the data sources into used and unused ones.
     */
    method DatasourceBreakdown(resolve: (string, string) -> string, schedule: nat -> seq<nat>) returns (r: Result<Value>)
      requires forall n: nat :: IsSchedule(schedule(n), n)
      modifies this
      ensures r.Ok? ==> r.value.Object? && Keys(r.value.fields) == ["used", "unused"]
      ensures remote.listing.Err? ==> r == Err(TypeError)
    {
      var scanned := ScanDashboards(None, schedule);
      if scanned.Err? {
        return Err(scanned.error);
      }
      var found := ScanDatasources();
      var ix := new Indexing.Indexer(scanned.value, found);
      var indexed := ix.Index();
      if indexed.Err? {
        return Err(indexed.error);
      }
      r := BreakdownItems(ix.datasourceByName, ix.dashboardByUid, ix.datasourceDashboardIndex, grafanaUrl, resolve);
    }
  }
}
