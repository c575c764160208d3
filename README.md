# grafana-wtf, modelled in Dafny

grafana-wtf searches a Grafana instance. It scans the instance's data sources
and dashboards, looks for a text anywhere in their JSON, replaces that text in
dashboards, shows the dashboards' edit history, cross-references dashboards
with the data sources they use, and prints the results as tables. This project
models the in-memory part of that work and proves what it promises:

- **Json**: JSON documents as the Python code sees them: None, bool, int, str,
  list and ordered dict. It also gives the Python operations the code applies to
  them: `str()`/`repr()` (escaping included), `==`, truth testing, Munch
  attribute access, subscripts, `dict.get`, `in` and iteration. **Dict** models
  dicts as ordered key/value lists, and **Text** gives the string methods the
  code uses (`in`, `split`, `join`, `replace`, `strip`, `lower`, `capitalize`,
  `int()`/`str()` on integers). **Order** gives Python's string order, `sorted(set(...))`
  and the stable `sorted(..., reverse=True)`.
- **PathFinder**: `JsonPathFinder.find`. It enumerates `$..*` as an explicit
  recursive function, renders match paths, and filters the matches. It has one
  finding; see below.
- **Core**: the `GrafanaSearch` engine as a class over the scanned lists:
  - `search`/`search_items`, which call `find` as written, fast reject included;
  - `scan_datasources`, and `scan_dashboards` with both of its branches;
  - `fetch_dashboards`, sequential, and parallel under an arbitrary completion order;
  - `replace`, `log` and `datasource_breakdown`.

  The Grafana HTTP API is a value (`Core.Remote`) that says what each call
  returns.
- **Indexing**: the `Indexer` class with its four dicts. The proofs show that
  the two name indexes are each other's inverse and hold no duplicates.
- **Model**: `GrafanaDataModel`, the `DashboardDetails` properties, and the two
  `format_compact` methods.
- **Monkey**: the `update_dashboard` payload fix, which back-fills `folderId`.
- **Util**: `read_list`, `as_bool`, `normalize_options`, `to_list` and
  `format_dict`.
- **Tabular**: the tabular search report:
  - the rows of `get_output_items`/`output_items`;
  - `get_bibdata_dict`;
  - the de-duplicated data source list of `get_datasources`.
- **EditHistory**: `to_table` rewriting the entries in place, and
  `compact_table`.
- **Commands**: what `run` computes:
  - the table format;
  - the cache lifetime;
  - the URL check;
  - the empty search expression;
  - the `log` command's sort, cut and output.

Python exceptions are modelled as `Result` errors: KeyError, AttributeError,
TypeError, ValueError, a Grafana client error, and the usage error. A loop
stops at the first one, as in the code.

`get_table_format`, `to_table`, `compact_table`, `get_datasources` and
`get_bibdata_dict` exist in two or three identical copies, in
`grafana_wtf/commands.py`, `grafana_wtf/report/tabular.py` and
`grafana_wtf/tabular_report.py`. Each is modelled once, and the table cites
one copy:

- `get_table_format`: `grafana_wtf/commands.py:190-198` and
  `grafana_wtf/report/tabular.py:11-19`.
- `to_table`: `grafana_wtf/commands.py:201-212` and
  `grafana_wtf/report/tabular.py:93-105`.
- `compact_table`: `grafana_wtf/commands.py:215-233` and
  `grafana_wtf/report/tabular.py:107-130`.
- Row building: `grafana_wtf/report/tabular.py:31-40` and
  `grafana_wtf/tabular_report.py:16-25`.
- `get_bibdata_dict`: `grafana_wtf/report/tabular.py:42-61` and
  `grafana_wtf/tabular_report.py:27-47`.
- `get_datasources`: `grafana_wtf/report/tabular.py:63-80` and
  `grafana_wtf/tabular_report.py:49-67`.

The two `format_compact` methods build their short forms the same way
(`grafana_wtf/model.py:52-65` and `77-90`).

## Model

| member | source | states |
|---|---|---|
| Json.Attr | grafana_wtf/core.py:352-356 | Attribute access on a Munch yields the stored value exactly when the dict holds the key, and raises AttributeError naming the key otherwise |
| Json.Subscript | grafana_wtf/core.py:141-153 | `v[key]` yields the stored value when the dict holds the key; otherwise KeyError on a dict and TypeError on any other value |
| Json.DictGet | grafana_wtf/model.py:34-42 | `get` exists only on dicts and yields the stored value or the default |
| Json.PyIn | grafana_wtf/monkey.py:11-12 | `key in v` tests the keys of a dict, substrings of a string and equal members of a list; on None, bool or int it raises TypeError |
| Json.PyEqReflexive | grafana_wtf/report/tabular.py:77 | Python `==` is reflexive on well-formed documents, so a value listed once is later seen as present |
| Json.EscapePlain | grafana_wtf/util.py:74 | `repr()` leaves a text of printable ASCII characters other than `\` and `'` unchanged |
| Json.EscapeKeepsPlain | grafana_wtf/util.py:74 | A needle of printable ASCII other than `\` and `'` that occurs in a string still occurs in the string's escaped text |
| Json.StrReprShows | grafana_wtf/util.py:74 | The `repr()` of a string shows its escaped text |
| Json.EscapeLacks | grafana_wtf/util.py:74 | A character that `repr()` escapes, other than `\` and `'`, never shows in an escaped text: control characters, U+007F to U+00A0, U+00AD, and the separators, format characters, private-use and noncharacter code points above U+00FF |
| Json.ReprLacks | grafana_wtf/util.py:74 | Such a character never shows in the `repr()` of any document |
| Json.PyStr | grafana_wtf/util.py:93 | `str()` of a non-string value is its `repr()` |
| Dict.LookupFound | grafana_wtf/core.py:357 | A key is found exactly when the dict holds it, and then with its stored value |
| Dict.LookupAt | grafana_wtf/core.py:357 | In a dict, the value found under a key is the one at that key's position |
| Dict.Store | grafana_wtf/core.py:357 | `d[key] = value` makes `key` map to `value` and leaves every other key as it was |
| Dict.StoreKeepsOrder | grafana_wtf/core.py:372 | Storing keeps every existing key in its position and appends a new key at the end |
| Dict.StoreUnique | grafana_wtf/core.py:363 | Storing into a dict keeps each key once |
| Dict.Remove | grafana_wtf/commands.py:209-211 | `del d[key]` removes `key` and leaves every other key's value as it was |
| Dict.RemoveKeepsEntries | grafana_wtf/commands.py:209-211 | Deleting only drops entries; it never invents one |
| Dict.RemoveUnique | grafana_wtf/commands.py:209-211 | Deleting from a dict keeps each key once |
| Text.ContainsTrans | grafana_wtf/util.py:74 | A substring of a substring is a substring |
| Text.JoinContainsPart | grafana_wtf/report/tabular.py:59 | Every joined part occurs in the joined text |
| Text.SplitJoin | grafana_wtf/util.py:58 | Joining the pieces of a split with the same separator gives the text back |
| Text.SplitPiecesFree | grafana_wtf/util.py:58 | No piece of a split contains the separator |
| Text.ReplaceUnchangedIff | grafana_wtf/core.py:124-125 | `s.replace(e, r) == s` holds exactly when `e` does not occur in `s` or `r == e`, including Python's rules for the empty pattern |
| Text.LowerIdempotent | grafana_wtf/util.py:157 | Lower-casing twice is lower-casing once |
| Text.Capitalize | grafana_wtf/commands.py:226 | Capitalising keeps the length of the text, so only an empty message gives empty notes |
| Text.StripShape | grafana_wtf/commands.py:206-207 | The stripped text is the slice left after removing stripped characters from both ends; it neither starts nor ends with one |
| Text.StripContained | grafana_wtf/util.py:58 | The stripped text is a substring of the original |
| Text.StripIdempotent | grafana_wtf/commands.py:207 | Stripping the same characters twice is stripping them once |
| Text.IntToStringRoundTrip | grafana_wtf/commands.py:118 | `int(str(i)) == i` for every integer |
| Text.ParseDigits | grafana_wtf/commands.py:118 | `int()` reads digits exactly when they are grouped by single underscores between digits; plain digits give their decimal value |
| Text.UnderscoreIgnored | grafana_wtf/commands.py:118 | An underscore between two groups of digits does not change the value `int()` reads |
| Text.ParseIntGrouped | grafana_wtf/commands.py:118 | `int("1_000")` is 1000 |
| Order.LessTotal | grafana_wtf/core.py:298 | Python's string order is total and asymmetric |
| Order.LessTransitive | grafana_wtf/core.py:298 | Python's string order is transitive |
| Order.SortedDistinct | grafana_wtf/core.py:363 | `sorted(set(names))` is strictly ascending and holds exactly the given names |
| Order.StrictlySortedUnique | grafana_wtf/core.py:363 | Only one strictly ascending list has a given set of elements |
| Order.SortDesc | grafana_wtf/commands.py:168 | The sort is a permutation of its input |
| Order.SortDescCorrect | grafana_wtf/commands.py:168 | The sort is in descending key order and stable: elements with equal keys keep their input order |
| Order.InsertDescWithKey | grafana_wtf/commands.py:168 | Inserting into a descending list places the element after every element with an equal key |
| PathFinder.Under | grafana_wtf/util.py:79 | Matches inside a child are seen from the parent with the child's segment prepended |
| PathFinder.FieldNodes | grafana_wtf/util.py:79 | A dict's own fields are matches of `$..*`, one per field, in key order |
| PathFinder.FlattenMember | grafana_wtf/util.py:79 | The flattened matches are exactly those of the groups |
| PathFinder.NodesResolve | grafana_wtf/util.py:79 | Every `$..*` match is stored under a dict key: its route is non-empty, ends in a key, and leads from the root to its value |
| PathFinder.NestedFieldResolves | grafana_wtf/util.py:79 | A match inside a field value resolves through that field |
| PathFinder.NestedItemResolves | grafana_wtf/util.py:79 | A match inside a list element resolves through the element's index |
| PathFinder.RenderCons | grafana_wtf/util.py:79 | A rendered path is the first segment, a dot and the rendered rest |
| PathFinder.RenderSingle | grafana_wtf/util.py:79 | A one-segment path renders as that segment |
| PathFinder.RenderExample | tests/test_commands.py:66-67 | Keys render plain and list positions as `[i]`, joined by dots: `panels.[1]` |
| PathFinder.FilterMatches | grafana_wtf/util.py:79-95 | `find` reports at most the enumerated nodes |
| PathFinder.FilterMatchesSnoc | grafana_wtf/util.py:79-95 | Matches are reported in enumeration order; each enumerated node is reported after the earlier ones or not at all |
| PathFinder.FilterMatchesMembers | grafana_wtf/util.py:80-95 | A node is reported exactly when it is enumerated, is not None, is not under a non-leaf key, is a str, int or list, and its text contains the needle |
| PathFinder.FindAsWritten | grafana_wtf/util.py:70-103 | The code as written: when the document's text lacks the needle the result is empty, and every reported node is an enumerated match that passes the filter |
| PathFinder.FindAsWrittenLosesEscaped | grafana_wtf/util.py:74-75 | The code as written returns no matches for any document when the needle holds a character that `repr()` escapes, other than `\` and `'` |
| PathFinder.FindAsWrittenLosesMatch | grafana_wtf/util.py:74-75 | A needle holding a newline is found in a field value, yet the fast reject returns no matches |
| PathFinder.FindAsWrittenLosesWideMatch | grafana_wtf/util.py:74-75 | A needle holding an ideographic space (U+3000) is found in a field value, yet the fast reject returns no matches |
| PathFinder.ReprContainsChild | grafana_wtf/util.py:74 | The `repr()` of a dict or list contains the `repr()` of each member |
| PathFinder.ReprContainsNode | grafana_wtf/util.py:74 | The `repr()` of a document contains the `repr()` of every `$..*` match |
| PathFinder.ReportedInDocument | grafana_wtf/util.py:74-95 | A needle of printable ASCII other than `\` and `'` that is reported for a match occurs in the document's text |
| PathFinder.FastRejectSound | grafana_wtf/util.py:74-75 | For a needle of printable ASCII other than `\` and `'` the fast reject only fires when nothing would be reported |
| PathFinder.FindAsWrittenPlain | grafana_wtf/util.py:70-103 | For needles of printable ASCII other than `\` and `'` the code as written reports every match the filter finds |
| PathFinder.FilterNodes | grafana_wtf/util.py:79-95 | The loop keeps exactly the reported nodes, in enumeration order |
| PathFinder.FindWithFastReject | grafana_wtf/util.py:70-103 | The loop of `find` as written, fast reject included, returns exactly `FindAsWritten`'s matches |
| PathFinder.Find | grafana_wtf/util.py:70-103 | The corrected `find` applies the fast reject only to needles of printable ASCII other than `\` and `'`, and reports exactly the filtered `$..*` matches, in order |
| Core.FlatMapAppend | grafana_wtf/core.py:162-172 | The outputs of two lists of items are those of the first followed by those of the second |
| Core.FlatMapMember | grafana_wtf/core.py:162-172 | An output comes from some item |
| Core.SearchHitsAppend | grafana_wtf/core.py:162-172 | Hits come in item order |
| Core.SearchWithoutExpression | grafana_wtf/core.py:164-165 | Without an expression every item is wrapped with empty meta, one hit per item, in order |
| Core.HitsFor | grafana_wtf/core.py:163-171 | The hit rule for one item: wrapped with empty meta without an expression; with one, wrapped with `find`'s matches when there are any. `Core.SearchWithoutExpression` and `Core.SearchWithExpression` state what it yields |
| Core.SearchWithExpression | grafana_wtf/core.py:166-172 | With an expression, the hits are the items for which `find` as written, fast reject included, reports matches; each carries exactly those matches, and every such item is among them |
| Core.SearchWithPlainExpression | grafana_wtf/core.py:166-172 | For an expression of printable ASCII other than `\` and `'`, each hit carries exactly the filtered `$..*` matches of its item, and every item with such matches is a hit |
| Core.SearchLosesEscaped | grafana_wtf/core.py:166-172 | An expression holding a character that `repr()` escapes, other than `\` and `'`, finds no hit among dict or list items, whatever their fields hold |
| Core.FetchOne | grafana_wtf/core.py:242-247 | Fetching reads `title` and `uid` from the listing entry; it succeeds with the instance's dashboard for that uid, and otherwise raises a client error |
| Core.FetchAll | grafana_wtf/core.py:249-253 | The sequential fetch never yields more dashboards than there are listed entries |
| Core.FetchAllInOrder | grafana_wtf/core.py:249-253 | Dashboards are fetched one per listed entry, in list order, up to the first failing fetch, whose exception is raised |
| Core.FetchScheduledMember | grafana_wtf/core.py:242-277 | In a parallel fetch a dashboard is appended exactly when some scheduled fetch returns it |
| Core.FetchScheduledLength | grafana_wtf/core.py:271-277 | When every scheduled fetch succeeds, each appends one dashboard |
| Core.ParallelFetchesSame | grafana_wtf/core.py:249-281 | Under any completion order, the parallel fetch finds the same dashboards as the sequential one |
| Core.FetchBodies | grafana_wtf/core.py:204-212 | The uid branch succeeds unless a known uid's response lacks `dashboard`; every body listed is the `dashboard` of some known uid's response |
| Core.FetchBodiesAppend | grafana_wtf/core.py:205-212 | Bodies come in uid order, and later uids are fetched only when the earlier ones raised nothing |
| Core.SelectMembers | grafana_wtf/core.py:122-127 | An item is selected exactly when it is in the list and satisfies the condition |
| Core.SweepSelects | grafana_wtf/core.py:122-130 | A loop that skips exactly the unselected items yields one result per selected item, in order |
| Core.ReplaceSkipsUnchanged | grafana_wtf/core.py:123-127 | A dashboard is skipped exactly when the expression does not occur in its JSON text or is replaced by itself |
| Core.ReplacePostCarriesMessage | grafana_wtf/core.py:128-130 | A changed dashboard is posted to the dashboard save path with message `grafana-wtf: Replaced "<e>" by "<r>"`; every other key of the reparsed text is unchanged apart from `folderId` |
| Core.ChangedMembers | grafana_wtf/core.py:123-125 | A dashboard is changed exactly when it is listed and the substitution changes its text |
| Core.ReplaceSavesEachChanged | grafana_wtf/core.py:122-130 | A `replace` that raises nothing saves each changed dashboard exactly once, in list order, and nothing else |
| Core.RevisionEntry | grafana_wtf/core.py:148-156 | An entry has the keys datetime, user, message, folder, title, version and url, in that order. Its values come from the revision and the listing entry; `folder` is None when the entry has no `folderTitle` |
| Core.RevisionStep | grafana_wtf/core.py:147-157 | One more revision either appends its entry or ends the log with its exception |
| Core.RevisionEntriesAll | grafana_wtf/core.py:147-157 | One entry per revision, in order, unless a revision raises |
| Core.GatherAppend | grafana_wtf/core.py:140-159 | The entries of a longer dashboard list are those of its parts, in order |
| Core.GatherStep | grafana_wtf/core.py:140-159 | One more listed dashboard either adds its entries or ends the log with its exception |
| Core.LogUnknownUid | grafana_wtf/core.py:141-142 | A uid that no listed dashboard has gives no entries |
| Core.LogEntriesAppend | grafana_wtf/core.py:140-159 | Entries follow the order of the dashboard list |
| Core.LogEntries | grafana_wtf/core.py:139-159 | The `log` loop over the dashboard list: the entries of each selected dashboard, or the first exception. `Core.GatherStep`, `Core.LogUnknownUid` and `Core.LogEntriesAppend` state what it yields |
| Core.DashboardsOf | grafana_wtf/core.py:301 | `map(dashboard_by_uid.get, uids)` gives one dashboard per uid, or None for an unknown uid |
| Core.PartitionMembers | grafana_wtf/core.py:307-310 | A name is listed under `used` exactly when its index list is non-empty |
| Core.Items | grafana_wtf/core.py:298-305 | One compact item per name, in order |
| Core.ItemsStep | grafana_wtf/core.py:298-310 | One more name adds its compact item to exactly one of the two lists |
| Core.AllItemsOkEach | grafana_wtf/core.py:298-305 | The loop gets through every name exactly when each name's item can be built |
| Core.CompactItem | grafana_wtf/core.py:299-305 | One name's compact item, or the exception that stops the loop |
| Core.BreakdownPartition | grafana_wtf/core.py:298-315 | Every name lands in exactly one of `used` and `unused`, and both lists are in ascending order |
| Core.BreakdownItems | grafana_wtf/core.py:296-317 | The response is `used` then `unused`: the compact items of the names with and without dashboards, in sorted name order. It fails exactly when some item cannot be built |
| Core.GrafanaSearch.constructor | grafana_wtf/core.py:34-44 | A fresh engine has empty data lists and a concurrency of five |
| Core.GrafanaSearch.EnableConcurrency | grafana_wtf/core.py:64-65 | Sets the concurrency and changes nothing else |
| Core.GrafanaSearch.SearchItems | grafana_wtf/core.py:161-172 | Appends the hits of each item, in order, found with `find` as written |
| Core.GrafanaSearch.Search | grafana_wtf/core.py:105-118 | The hits among the data sources, none among the dashboard listing, and the hits among the dashboards |
| Core.GrafanaSearch.ScanDatasources | grafana_wtf/core.py:183-194 | On success the listing replaces the data sources and is returned; after a client error nothing changes and None is returned |
| Core.GrafanaSearch.FetchDashboards | grafana_wtf/core.py:249-253 | Appends one dashboard per listed entry, in order, until the first fetch raises; that exception is raised |
| Core.GrafanaSearch.FetchDashboardsParallel | grafana_wtf/core.py:255-281 | Appends the successfully fetched dashboards in completion order; a failing fetch is lost with its worker |
| Core.GrafanaSearch.ListDashboards | grafana_wtf/core.py:205-212 | Appends the body of each known uid, in order, skipping client errors; a response without `dashboard` raises |
| Core.GrafanaSearch.ScanDashboards | grafana_wtf/core.py:200-232 | The uid branch appends bodies and the listing branch replaces the list. A failed listing returns None and changes nothing. The dashboards are then fetched one by one when concurrency is None or at most 1, and in parallel otherwise |
| Core.GrafanaSearch.Replace | grafana_wtf/core.py:120-130 | Saves the posts the replacement sweep yields, in order, until one raises; the scanned data is unchanged |
| Core.GrafanaSearch.RevisionLog | grafana_wtf/core.py:147-157 | The loop over one dashboard's revisions yields their entries, in order |
| Core.GrafanaSearch.MetaLog | grafana_wtf/core.py:141-157 | One listed dashboard gives nothing unless selected, otherwise one entry per revision |
| Core.GrafanaSearch.Log | grafana_wtf/core.py:132-159 | The loop yields the entries of the listed dashboards, in list order |
| Core.GrafanaSearch.DatasourceBreakdown | grafana_wtf/core.py:289-336 | The response has exactly the keys `used` and `unused`. When the dashboard listing fails, the indexer iterates None and raises TypeError |
| Indexing.DatasourceAttrs | grafana_wtf/core.py:344 | `item.datasource` for every item, or AttributeError when an item lacks it |
| Indexing.TruthyNames | grafana_wtf/core.py:344 | The truthy values are kept, and all of them must be strings |
| Indexing.CollectDatasourceNames | grafana_wtf/core.py:342-344 | The names collected are exactly the truthy `datasource` values of the items, each listed once, in ascending order; a value that is not iterable raises TypeError |
| Indexing.CollectRepeatedName | grafana_wtf/core.py:344 | Two panels that use the data source `A` give `["A"]` |
| Indexing.IndexDashboard | grafana_wtf/core.py:352-363 | An indexed dashboard's name list is strictly ascending |
| Indexing.IndexedNamesUsed | grafana_wtf/core.py:356-363 | An indexed dashboard's entry holds exactly the names used directly in its panels, annotation list and templating list, ascending and each once |
| Indexing.FolderSkipped | grafana_wtf/core.py:352-353 | A folder is never indexed |
| Indexing.LastWithUid | grafana_wtf/core.py:356-357 | The dashboard kept under a uid is an indexed dashboard with that uid |
| Indexing.LastWithUidStep | grafana_wtf/core.py:351-357 | A later dashboard with the same uid overwrites an earlier one |
| Indexing.FolderStep | grafana_wtf/core.py:352-353 | A folder changes no uid's entry |
| Indexing.IndexedStep | grafana_wtf/core.py:356-363 | Storing a dashboard under its uid keeps both dicts in step with the last dashboard of each uid |
| Indexing.LastWithName | grafana_wtf/core.py:370-372 | The data source kept under a name is a listed one with that name |
| Indexing.Occurrences | grafana_wtf/core.py:375-377 | A uid is appended under a name exactly when the entry holds the name |
| Indexing.UsersMember | grafana_wtf/core.py:374-377 | The uids listed under a name are those whose entries hold the name |
| Indexing.UsersDistinct | grafana_wtf/core.py:374-377 | No uid is listed twice under a name |
| Indexing.OccurrencesAtMostOnce | grafana_wtf/core.py:363-377 | A name held once by an entry appends its uid once |
| Indexing.AppendTo | grafana_wtf/core.py:376-377 | `setdefault(name, []).append(uid)` extends the list under `name` by `uid` and leaves every other name alone |
| Indexing.Indexer.constructor | grafana_wtf/core.py:322-333 | The indexer starts from the scan results, with all four dicts empty |
| Indexing.Indexer.IndexDashboards | grafana_wtf/core.py:346-363 | Succeeds exactly when the dashboards were scanned and each is a folder or can be indexed; a failed scan raises TypeError. Each uid then maps to the last dashboard with it and to that dashboard's sorted name list |
| Indexing.Indexer.IndexDatasources | grafana_wtf/core.py:365-377 | Each name maps to the last data source with it, and to the uids whose entries hold it, or is absent when there are none |
| Indexing.Indexer.Index | grafana_wtf/core.py:338-340 | Indexes dashboards, then data sources. Afterwards the two name indexes are each other's inverse, no list names a uid twice, and every indexed uid is a known dashboard. Each uid maps to the last dashboard with that uid and to that dashboard's sorted data source names. Each name maps to the last data source with that name, and to the uids of the dashboards that use it, when there are any |
| Indexing.NameOf | grafana_wtf/core.py:371 | `datasource.name`, which must be a string |
| Indexing.Invert | grafana_wtf/core.py:374-377 | The inverted index lists, under each name, the uids whose entries hold it, in index order |
| Indexing.AppendUnderEach | grafana_wtf/core.py:375-377 | The inner loop appends the uid under each of the entry's names |
| Indexing.InvertStep | grafana_wtf/core.py:375-377 | One append accounts for one more name of the entry |
| Indexing.CrossReference | grafana_wtf/core.py:374-377 | A uid is listed under a name exactly when the uid's entry holds the name, and no list holds a uid twice |
| Model.GrafanaDataModel.constructor | grafana_wtf/model.py:12-24 | Every list defaults to empty and the admin stats to an empty dict |
| Model.UrlJoin | grafana_wtf/model.py:64 | The joined URL is the path unchanged when the base is empty, the base when the path is empty, and otherwise the resolution of the path against the base |
| Model.AttrPath | grafana_wtf/model.py:61-63 | `d.a.b` succeeds exactly when both attribute accesses do |
| Model.Panels | grafana_wtf/model.py:32-34 | The dashboard's panels, or an empty list when it has none |
| Model.SectionList | grafana_wtf/model.py:38-42 | The section's `list`, or an empty list when the section or the list is missing |
| Model.Annotations | grafana_wtf/model.py:36-38 | The annotation list, by the section rule |
| Model.Templating | grafana_wtf/model.py:40-42 | The templating list, by the section rule |
| Model.DetailsDefaults | grafana_wtf/model.py:32-42 | A dashboard without panels, annotations or templating has three empty lists |
| Model.SectionWithoutList | grafana_wtf/model.py:38-42 | A section without `list` is empty too |
| Model.DatasourceShort | grafana_wtf/model.py:52-56 | The short form is exactly the name, type and url of the data source |
| Model.DashboardShort | grafana_wtf/model.py:60-65 | The short form is the title, uid, `path` equal to `meta.url`, and `url` that path joined to the instance URL |
| Model.DashboardShorts | grafana_wtf/model.py:58-66 | One short form per dashboard, in order |
| Model.DatasourceShorts | grafana_wtf/model.py:84-91 | One short form per data source, in order |
| Model.Compact | grafana_wtf/model.py:57-59 | The head entry first; the list key is present exactly when there are entries, and then holds them |
| Model.CollectUnder | grafana_wtf/model.py:58-67 | The setdefault/append loop builds the compact form when no short form fails, and otherwise fails with the first error |
| Model.DatasourceExplorationItem.FormatCompact | grafana_wtf/model.py:51-67 | The data source's name, type and url, then `dashboards` exactly when it is used, one summary per dashboard in `used_in` order |
| Model.DashboardExplorationItem.FormatCompact | grafana_wtf/model.py:76-92 | The dashboard's summary, then `datasources` exactly when there are any, in order |
| Monkey.UpdatePayload | grafana_wtf/monkey.py:11-14 | A payload that has `folderId`, or has no `meta`, is sent as it is; only a `meta` that is not a dict can raise |
| Monkey.UpdateDashboard | grafana_wtf/monkey.py:3-18 | The payload is always posted to `/dashboards/db` |
| Monkey.BackFillsFolderId | grafana_wtf/monkey.py:11-14 | A payload without `folderId` whose `meta` has one is sent with it added and every other key unchanged |
| Monkey.NoMetaFolderIdUnchanged | grafana_wtf/monkey.py:11-12 | Without `meta.folderId` the payload is sent unchanged |
| Monkey.UpdatePayloadIdempotent | grafana_wtf/monkey.py:11-14 | Fixing an already fixed payload changes nothing more |
| Monkey.UpdatePayloadOnlyFolderId | grafana_wtf/monkey.py:13-14 | The sent payload differs from the caller's at most in `folderId`; the caller's dict is a value and cannot change |
| Util.ReadList | grafana_wtf/util.py:55-61 | None gives no pieces. An empty separator raises ValueError. No piece holds the separator, and none starts or ends with whitespace |
| Util.PiecesStayFree | grafana_wtf/util.py:58 | Stripping the pieces keeps the separator out of them |
| Util.SplitJoined | grafana_wtf/util.py:58 | A one-character separator splits a joined list back into its parts |
| Util.ReadListJoin | grafana_wtf/util.py:55-61 | Reading back a list joined with a one-character separator gives the list |
| Util.ReadListStrips | grafana_wtf/util.py:57-61 | Reading a list joined with a one-character separator that no item holds gives each item stripped of whitespace, in order; a single blank or empty item gives no pieces |
| Util.ReadListBlank | grafana_wtf/util.py:57-60 | Text holding no separator and only whitespace gives no pieces |
| Util.AsBool | grafana_wtf/util.py:128-159 | True for True and the six true words in any case; False for None, False and the six false words; ValueError for any other string; AttributeError for other values |
| Util.AsBoolReadsPrinted | grafana_wtf/util.py:142-157 | The printed form of a bool reads back as that bool |
| Util.AsBoolIgnoresCase | grafana_wtf/util.py:157 | Letter case does not matter |
| Util.ToList | grafana_wtf/util.py:171-174 | A list is returned unchanged, anything else is wrapped in a one-element list |
| Util.ToListIdempotent | grafana_wtf/util.py:171-174 | Applying it twice is applying it once |
| Util.Normalized | grafana_wtf/util.py:41-52 | The value under a key comes from an option one of whose two name variants is that key |
| Util.NormalizeOptions | grafana_wtf/util.py:41-52 | The loop stores each option under both variants of its name; a later option overwrites an earlier one |
| Util.NormalizedBothNames | grafana_wtf/util.py:44-50 | An option whose names no later option shares is found under both variants |
| Util.PadLeft | grafana_wtf/util.py:165 | Right-aligns to the width with spaces and never cuts |
| Util.LinesAppend | grafana_wtf/util.py:164-166 | The lines of two dicts' entries are the first's followed by the second's |
| Util.ConcatLines | grafana_wtf/util.py:163-166 | The buffer holds one line per entry, in order |
| Util.FormatDict | grafana_wtf/util.py:162-168 | The text is the lines with trailing whitespace removed: a prefix, only whitespace after it, and ending in a visible character |
| Util.LinesAround | grafana_wtf/util.py:164-166 | Each entry's line sits between the lines before and after it |
| Util.FormatDictShowsKey | grafana_wtf/util.py:162-168 | Every key ending in a visible character appears in the text, right-aligned to twelve columns |
| Tabular.NamedValues | grafana_wtf/report/tabular.py:65-66 | The `$..datasource` matches are at most the `$..*` matches |
| Tabular.NamedValuesFound | grafana_wtf/report/tabular.py:65-66 | A value is found exactly when some match ends in the key `datasource` and holds it |
| Tabular.DatasourceValuesStored | grafana_wtf/report/tabular.py:65-66 | Every value found is stored under a `datasource` key of the item |
| Tabular.Listed | grafana_wtf/report/tabular.py:73-76 | A dict is listed as a dict and anything else as its text |
| Tabular.UniqueAppend | grafana_wtf/report/tabular.py:70-78 | One more value is appended exactly when it is truthy and not yet present |
| Tabular.UniqueDistinct | grafana_wtf/report/tabular.py:77-78 | No listed value equals an earlier one |
| Tabular.Unique | grafana_wtf/report/tabular.py:69-80 | The de-duplicated list of the found values, which is never longer than they are. `Tabular.UniqueDistinct`, `Tabular.UniqueSound` and `Tabular.UniqueComplete` state what it holds |
| Tabular.UniqueSound | grafana_wtf/report/tabular.py:70-78 | Every listed value comes from a truthy value found |
| Tabular.UniqueComplete | grafana_wtf/report/tabular.py:70-78 | Every truthy value found is listed, or an equal one is |
| Tabular.UniqueGrows | grafana_wtf/report/tabular.py:69-80 | Values are listed in the order they are first seen |
| Tabular.ListContains | grafana_wtf/report/tabular.py:77 | `value in datasources` by Python equality |
| Tabular.GetDatasources | grafana_wtf/report/tabular.py:63-80 | The loop builds the de-duplicated list of the found values |
| Tabular.ListedTextUnwrapped | grafana_wtf/report/tabular.py:74 | A listed dict prints as its Munch would, without the `Munch(...)` wrapper |
| Tabular.DatasourcesCellShows | grafana_wtf/report/tabular.py:59 | The Datasources cell shows the text of every listed data source |
| Tabular.ItemName | grafana_wtf/report/textual.py:133-139 | An item that is not a container raises TypeError |
| Tabular.ItemNameCases | grafana_wtf/report/textual.py:133-139 | The name is the item's `name`, else its `meta.slug`, else "unknown" |
| Tabular.Attr2 | grafana_wtf/report/tabular.py:47-52 | `item.a.b` succeeds exactly when both accesses do |
| Tabular.DashboardBib | grafana_wtf/report/tabular.py:46-61 | A dashboard's fields are Title, Folder, UID, Created, Updated, Created by, then Updated by unless under test, then Datasources and URL, with the Datasources cell and the URL given |
| Tabular.BibData | grafana_wtf/report/tabular.py:42-45 | An item that is not a container raises TypeError |
| Tabular.BibDataCases | grafana_wtf/report/tabular.py:44-45 | A non-dashboard item gets only `data_source_type`, or nothing; a dashboard gets its dashboard fields over the de-duplicated data sources |
| Tabular.DashboardBibKeys | grafana_wtf/report/tabular.py:46-61 | A dashboard's fields hold each key once, never `Type` or `Name`, and end with `URL` |
| Tabular.BibKeysDistinct | grafana_wtf/report/tabular.py:47-59 | The bibliographic keys are distinct and never `Type` or `Name` |
| Tabular.DashboardBibKeyList | grafana_wtf/report/tabular.py:47-60 | The keys come in the fixed order, with `Updated by` exactly when not under test |
| Tabular.BibDataKeys | grafana_wtf/report/tabular.py:42-61 | Bibliographic fields hold each key once, never `Type` or `Name`; a dashboard's end with its URL |
| Tabular.OutputRowShape | grafana_wtf/report/tabular.py:32-37 | A row starts with Type = the section and Name = the item's name, then holds each field once; a dashboard row ends with its URL |
| Tabular.OutputRow | grafana_wtf/report/tabular.py:33-37 | The row of one hit, or the exception that building it raises. `Tabular.OutputRowShape` states its keys |
| Tabular.TypeNameFirst | grafana_wtf/report/tabular.py:34-36 | Putting Type and Name in front of fields that have neither keeps the keys distinct |
| Tabular.OutputItemsRows | grafana_wtf/report/tabular.py:31-40 | Exactly one row per item, in order, when no item raises |
| Tabular.OutputItems | grafana_wtf/report/tabular.py:31-40 | The rows of the hits, up to the first exception. `Tabular.OutputItemsRows` states that there is one per hit, in order |
| EditHistory.RowName | grafana_wtf/commands.py:204-207 | The name can be formed exactly when the title is a string and a truthy folder is a string; otherwise `strip` raises AttributeError |
| EditHistory.RowNameParts | grafana_wtf/commands.py:204-207 | The name is `folder » title` with the parts stripped when the folder is truthy, and the title otherwise; either way the spaces and 🤓 are stripped |
| EditHistory.ToRow | grafana_wtf/commands.py:202-212 | A converted entry is still a dict |
| EditHistory.RenamedLookups | grafana_wtf/commands.py:207-210 | Storing the name and deleting folder and title leaves the name and every other key |
| EditHistory.TrimLookups | grafana_wtf/commands.py:207-211 | A completed trim leaves the name and every key but folder, title and version |
| EditHistory.ToRowRewrites | grafana_wtf/commands.py:201-212 | A converted entry holds the combined name, no folder, title or version, and every other key with its old value |
| EditHistory.ToRowSucceeds | grafana_wtf/commands.py:204-211 | An entry converts exactly when it is a dict with title, folder and version whose name can be formed |
| EditHistory.TrimSucceeds | grafana_wtf/commands.py:209-211 | The trim completes exactly when there is a version to delete |
| EditHistory.RenamedKeeps | grafana_wtf/commands.py:207-210 | Other keys are untouched |
| EditHistory.InPlace | grafana_wtf/commands.py:202-212 | The rewritten list has the length of the original |
| EditHistory.InPlaceAppend | grafana_wtf/commands.py:202-212 | One more entry gets its step after the earlier ones |
| EditHistory.InPlaceStops | grafana_wtf/commands.py:202-212 | After a failing entry the rest of the list is left as it was |
| EditHistory.InPlaceEntries | grafana_wtf/commands.py:202-212 | The pass completes exactly when every entry converts, and then each entry is its converted form |
| EditHistory.RewriteEach | grafana_wtf/commands.py:202-212 | Rewrites the array in place, front to back, and reports the exception that stopped it |
| EditHistory.ToTable | grafana_wtf/commands.py:201-212 | `to_table` consumed in full: the entries rewritten in place, and the first exception |
| EditHistory.Notes | grafana_wtf/commands.py:226 | An empty message gives "n/a", any other its capitalised, non-empty form |
| EditHistory.Separator | grafana_wtf/commands.py:216-218 | `<br/>` for formats ending in `pipe`, a newline otherwise |
| EditHistory.CompactRow | grafana_wtf/commands.py:219-233 | A row can be built exactly when the entry is a dict holding name, url, a string message, user and datetime; it has exactly the keys Dashboard and Update |
| EditHistory.DashboardCellPipe | grafana_wtf/commands.py:221-228 | In a pipe table the Dashboard cell is the notes and the Markdown link joined by `<br/>` |
| EditHistory.UpdateCellPipe | grafana_wtf/commands.py:229-232 | In a pipe table the Update cell is the user and the date joined by `<br/>` |
| EditHistory.DashboardCellLines | grafana_wtf/commands.py:223-228 | Otherwise the Dashboard cell reads back, line by line, as the notes, the name and the URL |
| EditHistory.UpdateCellLines | grafana_wtf/commands.py:229-232 | Otherwise the Update cell reads back as the user and the date |
| EditHistory.CompactRowPipe | grafana_wtf/commands.py:215-233 | A pipe row holds the notes and link, and the user and date, each pair joined by `<br/>` |
| EditHistory.CompactRowLines | grafana_wtf/commands.py:215-233 | A row in another format splits back into its lines, when no value spans several lines |
| EditHistory.NotesOneLine | grafana_wtf/commands.py:226 | Capitalising adds no newline |
| EditHistory.CompactTable | grafana_wtf/commands.py:215-233 | Collects the compacted rows, in order, up to the first exception |
| EditHistory.ChainSplits | grafana_wtf/commands.py:181 | Chaining the two generators gives what the second gives on the list the first leaves behind |
| EditHistory.Chain | grafana_wtf/commands.py:181 | The converting generator chained into the compacting one, with Python's lazy order of steps. `EditHistory.ChainSplits` states how the two compose |
| EditHistory.RenderChains | grafana_wtf/report/tabular.py:87-90 | The rendered table is the compacted form of the converted entries |
| EditHistory.Render | grafana_wtf/report/tabular.py:87-89 | `render`'s rows: the entries converted and compacted in the given format. `EditHistory.RenderChains` states that these are the compacted converted entries |
| Wrappers.CollectRows | grafana_wtf/report/tabular.py:32-39 | A generator consumed into a list gives one row per entry, in order, when none raises |
| Wrappers.CollectStops | grafana_wtf/commands.py:219-233 | An exception stops the rest of the output |
| Commands.TableFormat | grafana_wtf/commands.py:190-198 | A format is chosen exactly when the output format starts with `tabular` |
| Commands.TableFormatNamed | grafana_wtf/commands.py:194 | `tabular:<name>` selects `<name>` |
| Commands.TableFormatBare | grafana_wtf/commands.py:195-196 | A bare `tabular` selects `psql` |
| Commands.TableFormatNoColon | grafana_wtf/commands.py:194 | The chosen format never holds a colon |
| Commands.CacheTtl | grafana_wtf/commands.py:117-123 | The only failure is the ValueError of `int()` |
| Commands.CacheTtlNumber | grafana_wtf/commands.py:118 | The decimal text of an integer gives that many seconds |
| Commands.CacheTtlForever | grafana_wtf/commands.py:119-121 | The empty text and every prefix of `infinite`, in any case, mean never expire |
| Commands.OptionOr | grafana_wtf/commands.py:113-114 | The option unless it is missing or empty, then the environment |
| Commands.ConfigureWithoutUrl | grafana_wtf/commands.py:113-127 | Without a URL option or GRAFANA_URL, `run` stops with the usage error before any engine exists, unless the cache lifetime was already rejected |
| Commands.ConfigureReads | grafana_wtf/commands.py:113-131 | A URL option wins over GRAFANA_URL, and every setting is the one read |
| Commands.Configure | grafana_wtf/commands.py:113-131 | The settings that `run` reads from its options and the environment, or the error it raises. `Commands.ConfigureReads` and `Commands.ConfigureWithoutUrl` state what they are |
| Commands.Start | grafana_wtf/commands.py:129-131 | A fresh engine for the URL with the concurrency read |
| Commands.SearchExpression | grafana_wtf/commands.py:150 | A non-empty expression is kept as it is; an empty or missing one becomes None |
| Commands.EmptyExpressionSelectsAll | grafana_wtf/commands.py:150 | An empty search expression selects every item, once, in order |
| Commands.DatetimeOf | grafana_wtf/commands.py:168 | The sort key exists exactly when the entry holds a string `datetime` |
| Commands.SortError | grafana_wtf/commands.py:168 | Sorting raises nothing exactly when every entry has a sort key |
| Commands.SliceStop | grafana_wtf/commands.py:172 | The slice end never passes the list end |
| Commands.LogViewOrder | grafana_wtf/commands.py:166-172 | The shown entries are newest first and a prefix of the stable sort. Without `--number` they are a permutation of the entries; with a count they are its first entries |
| Commands.LogView | grafana_wtf/commands.py:168-172 | The entries sorted newest first and cut to `--number`, or the error that the sort or `int()` raises. `Commands.LogViewOrder` states their order and contents |
| Commands.LogOutput | grafana_wtf/commands.py:176-185 | `json` dumps the entries, and any format other than `json` or `tabular...` raises ValueError |
| Commands.LogOutputTable | grafana_wtf/commands.py:179-182 | A table has one compacted row per converted entry, in the format after `tabular:` |
| Commands.LogCommand | grafana_wtf/commands.py:167-185 | An exception while gathering the history is raised |
| Commands.RunLog | grafana_wtf/commands.py:165-187 | Scans the listing, then renders the history of the selected dashboards; a failing sequential fetch ends it with its exception |

## Left out

- HTTP and remote plumbing are not part of this model, and the instance is a value (`Core.Remote`):
  - the client factory and `setup`;
  - the request cache (`enable_cache`, `clear_cache`);
  - `get_dashboard_versions`, whose answers are `Remote.versions`.
- Logging, the coloured error messages (`handle_grafana_error`, `get_red_message`) and the tqdm progress bar are left out: they do not affect the data.
- Threads and asyncio are left out. The order in which parallel fetches complete is a parameter (`schedule`) that ranges over every permutation.
- `json.dumps`, `json.loads` and `urljoin` are parameters, because they are library code. `UrlJoin` fixes only their behaviour on empty arguments.
- The report's `url_callback` is a parameter.
- Environment variables (`GRAFANA_URL`, `GRAFANA_TOKEN`, `PYTEST_CURRENT_TEST`) are read into parameters.
- docopt is not part of this model. `DocoptExit` is the error `UsageError` carrying the same message.
- `tabulate` and every `print` are left out. The model stops at the rows handed to them.
- The printing reports `grafana_wtf/report.py`, `grafana_wtf/report/textual.py` (except `get_item_name`) and `grafana_wtf/report/data.py` are not part of this model. Neither are `prettify_json`, `yaml_dump`, `filter_with_sql`, `grafana_wtf/compat.py` or `setup.py`.
- `scan()` is not modelled as its own member: it only calls `scan_datasources` and `scan_dashboards`, which are.
- Text.ParseInt: reads ASCII digits only. Python's `int()` also accepts the decimal digits of other scripts (such as the Arabic-Indic `١٢`, which it reads as 12), and the model reports those as ValueError. The same holds for `Commands.CacheTtl`, the `--concurrency` option read by `Commands.Configure`, and `--number` in `Commands.LogView`.
- Commands.CacheTtl: a lifetime written in the decimal digits of another script is reported as ValueError, where Python's `int()` reads it (see `Text.ParseInt` above).
- Json.StrReprShows: `repr()` escapes the control characters, U+007F to U+00A0, U+00AD, and above U+00FF the space, line and paragraph separators, the format characters, the private-use code points and the noncharacters. It does not escape the code points that are unassigned (Unicode category Cn), which depends on the Unicode version Python ships with; Python escapes them.
- PathFinder.FindAsWritten: because of the gap above, a needle holding an unassigned code point keeps its matches in the model, while Python's fast reject discards them as it does for the escaped characters.
- Python floats are left out: numbers are integers, and bool counts as a number as in Python.
- Case mapping (`lower`, `capitalize`) covers ASCII letters only.
- Generators are consumed eagerly. A generator that raises is modelled as the list up to that point plus the exception.
- Each finder match object is opaque: a route and a value.
- Indexing.CollectDatasourceNames: lists the names in ascending order, where Python's `list(set(...))` has an order that depends on string hashing. Every caller sorts the result, so the order is never observed.
- Indexing.TruthyNames: a truthy `datasource` value that is not a string is reported as TypeError. This is Python's behaviour for a dict or list value, which `set()` cannot hash. For an int or a bool, `set()` and `sorted()` at `grafana_wtf/core.py:344` and `363` succeed (unless it is sorted against a string), so `Indexing.CollectDatasourceNames` and `Indexing.IndexDashboard` fail where the code does not. Grafana stores data source names as strings.
- Indexing.IndexDashboard: a dashboard uid that is not a string is reported as TypeError, where Python accepts any hashable key. The same holds for data source names in `Indexing.NameOf`.
- Commands.DatetimeOf: the sort key must be a string; a `datetime` of another type is reported as TypeError. Grafana sends ISO timestamps, whose text order is their time order.
- Core.GrafanaSearch.DatasourceBreakdown: states only the response's shape and the failed-listing error. What the two lists hold is stated by `Core.BreakdownItems` and `Core.BreakdownPartition` on the dicts that `Indexing.Indexer.Index` builds.
- `core.py` constructs `DatasourceBreakdownItem`, which does not exist in the repository. The breakdown uses `DatasourceExplorationItem`, which has the same fields.
- A non-dashboard row of the tabular report carries no URL. The dict that `get_bibdata_dict` returns for a data source ignores its keyword arguments (`grafana_wtf/report/tabular.py:44-45`), so the code gives the row no URL; the model follows the code.
- Pagination, uid re-sorting and a dry-run mode do not exist in the code and are not modelled.

## Findings

| source | as written | input that shows it | evidently intended | confidence | as-written member | corrected member |
|---|---|---|---|---|---|---|
| grafana_wtf/util.py:74-75 | The fast reject tests `needle not in str(haystack)`. That text shows strings through `repr()`, which escapes newlines, tabs, every other control character, backslashes, quotes and the non-printable characters above U+007E (such as U+00A0, U+2028, U+3000 and U+FEFF). A needle holding any of them except a backslash or a quote never occurs in that text, so `find` returns nothing for it | A needle `"a\nb"` and a document `{"q": "a\nb"}`: the document prints as `Munch({'q': 'a\\nb'})`, which lacks the needle. Likewise the needle `"\u3000"` and the document `{"a": "x\u3000y"}`, which prints as `Munch({'a': 'x\\u3000y'})`. In both, `find` returns nothing although the field value contains the needle | The fast reject only skips documents in which no match can exist | not executed | PathFinder.FindAsWritten, PathFinder.FindWithFastReject, PathFinder.FindAsWrittenLosesEscaped, PathFinder.FindAsWrittenLosesMatch, PathFinder.FindAsWrittenLosesWideMatch, Core.SearchLosesEscaped | PathFinder.Find, PathFinder.FastRejectSound, PathFinder.FindAsWrittenPlain |
