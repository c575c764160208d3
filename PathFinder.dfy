/**
 * The structural search of `JsonPathFinder.find`: the JSONPath query `$..*`
 * enumerates every value stored under a dict key, at any depth, together
 * with its route from the document root; `find` keeps the non-null leaf
 * values whose text contains the needle.
 */
module PathFinder {
  import opened Wrappers
  import opened Dict
  import opened Json
  import Text

  /** One step of a route: a dict key (`Fields`) or a list position (`Index`). */
  datatype Segment = Key(name: string) | Index(pos: nat)

  /** A JSONPath match: the route from the root and the value found there. */
  datatype Node = Node(route: seq<Segment>, value: Value)

  /** The matches of a child, seen from its parent through `seg`. */
  function Under(seg: Segment, nodes: seq<Node>): (r: seq<Node>)
    ensures |r| == |nodes|
    ensures forall i :: 0 <= i < |nodes| ==> r[i] == Node([seg] + nodes[i].route, nodes[i].value)
  {
    seq(|nodes|, i requires 0 <= i < |nodes| => Node([seg] + nodes[i].route, nodes[i].value))
  }

  function Flatten(groups: seq<seq<Node>>): seq<Node>
  {
    if groups == [] then [] else groups[0] + Flatten(groups[1..])
  }

  lemma {:induction false} FlattenMember(groups: seq<seq<Node>>, n: Node)
    ensures n in Flatten(groups) <==> exists g :: 0 <= g < |groups| && n in groups[g]
    decreases |groups|
  {
    if groups != [] {
      FlattenMember(groups[1..], n);
      if n in Flatten(groups[1..]) {
        var g :| 0 <= g < |groups[1..]| && n in groups[1..][g];
        assert n in groups[g + 1];
      }
      forall g | 0 <= g < |groups| && n in groups[g]
        ensures n in Flatten(groups)
      {
        if g > 0 {
          assert n in groups[1..][g - 1];
        }
      }
    }
  }

  /** The direct fields of a dict, each as a match. */
  function FieldNodes(fields: seq<(string, Value)>): (r: seq<Node>)
    ensures |r| == |fields|
    ensures forall i :: 0 <= i < |fields| ==> r[i] == Node([Key(fields[i].0)], fields[i].1)
  {
    seq(|fields|, i requires 0 <= i < |fields| => Node([Key(fields[i].0)], fields[i].1))
  }

  /**
   * The matches of `$..*` below `v`, in the order jsonpath_rw yields them:
   * at a dict, first every field of that dict, then the matches inside each
   * field value in key order; at a list, the matches inside each element in
   * list order. Lists and scalars have no fields of their own.
   */
  function Nodes(v: Value): seq<Node>
    decreases v
  {
    match v
    case Object(fields) =>
      FieldNodes(fields)
      + Flatten(seq(|fields|, i requires 0 <= i < |fields| => Under(Key(fields[i].0), Nodes(fields[i].1))))
    case List(items) =>
      Flatten(seq(|items|, i requires 0 <= i < |items| => Under(Index(i), Nodes(items[i]))))
    case _ => []
  }

  /** Follows a route from the root; `None` where a step does not exist. */
  function Resolve(v: Value, route: seq<Segment>): Option<Value>
    decreases |route|
  {
    if route == [] then Some(v)
    else match route[0]
      case Key(k) =>
        if v.Object? && Lookup(v.fields, k).Some? then Resolve(Lookup(v.fields, k).value, route[1..]) else None
      case Index(p) =>
        if v.List? && p < |v.items| then Resolve(v.items[p], route[1..]) else None
  }

  /** Every match of `$..*` is a value stored under a dict key: its route is
      non-empty, ends in a key, and leads from the root to that value. */
  lemma {:induction false} NodesResolve(v: Value, n: Node)
    requires WellFormed(v) && n in Nodes(v)
    ensures n.route != [] && n.route[|n.route| - 1].Key?
    ensures Resolve(v, n.route) == Some(n.value)
    decreases v, 1
  {
    match v
    case Object(fields) =>
      if n in FieldNodes(fields) {
        var i :| 0 <= i < |fields| && FieldNodes(fields)[i] == n;
        LookupAt(fields, i);
        assert n.route[1..] == [];
      } else {
        NestedFieldResolves(fields, n);
      }
    case List(items) =>
      NestedItemResolves(items, n);
  }

  /** A match found inside one of a dict's field values resolves through that field. */
  lemma {:induction false} NestedFieldResolves(fields: seq<(string, Value)>, n: Node)
    requires WellFormed(Object(fields)) && n in Nodes(Object(fields)) && n !in FieldNodes(fields)
    ensures n.route != [] && n.route[|n.route| - 1].Key?
    ensures Resolve(Object(fields), n.route) == Some(n.value)
    decreases Object(fields), 0
  {
    var groups := seq(|fields|, i requires 0 <= i < |fields| => Under(Key(fields[i].0), Nodes(fields[i].1)));
    assert n in Flatten(groups);
    FlattenMember(groups, n);
    var g :| 0 <= g < |groups| && n in groups[g];
    var k :| 0 <= k < |groups[g]| && groups[g][k] == n;
    var m := Nodes(fields[g].1)[k];
    assert m in Nodes(fields[g].1);
    NodesResolve(fields[g].1, m);
    assert n.route == [Key(fields[g].0)] + m.route;
    assert n.route[1..] == m.route;
    LookupAt(fields, g);
  }

  /** A match found inside a list element resolves through that element's index. */
  lemma {:induction false} NestedItemResolves(items: seq<Value>, n: Node)
    requires WellFormed(List(items)) && n in Nodes(List(items))
    ensures n.route != [] && n.route[|n.route| - 1].Key?
    ensures Resolve(List(items), n.route) == Some(n.value)
    decreases List(items), 0
  {
    var groups := seq(|items|, i requires 0 <= i < |items| => Under(Index(i), Nodes(items[i])));
    FlattenMember(groups, n);
    var g :| 0 <= g < |groups| && n in groups[g];
    var k :| 0 <= k < |groups[g]| && groups[g][k] == n;
    var m := Nodes(items[g])[k];
    assert m in Nodes(items[g]);
    NodesResolve(items[g], m);
    assert n.route == [Index(g)] + m.route;
    assert n.route[1..] == m.route;
  }

  // ---------------------------------------------------------------------------
  // Rendering a route

  function RenderSegment(seg: Segment): string
  {
    match seg
    case Key(k) => k
    case Index(p) => "[" + Text.NatToString(p) + "]"
  }

  /** `str(match.full_path)`: the segments joined by dots, list positions as `[i]`. */
  function RenderRoute(route: seq<Segment>): string
  {
    Text.Join(seq(|route|, i requires 0 <= i < |route| => RenderSegment(route[i])), ".")
  }

  /** A route renders as its first segment, a dot, and the rest. */
  lemma RenderCons(seg: Segment, rest: seq<Segment>)
    requires rest != []
    ensures RenderRoute([seg] + rest) == RenderSegment(seg) + "." + RenderRoute(rest)
  {
    var route := [seg] + rest;
    var parts := seq(|route|, i requires 0 <= i < |route| => RenderSegment(route[i]));
    assert parts[1..] == seq(|rest|, i requires 0 <= i < |rest| => RenderSegment(rest[i]));
  }

  /** A one-segment route renders as that segment. */
  lemma RenderSingle(seg: Segment)
    ensures RenderRoute([seg]) == RenderSegment(seg)
  {
    var parts := seq(1, i requires 0 <= i < 1 => RenderSegment([seg][i]));
    assert parts == [RenderSegment(seg)];
  }

  /** The path printed for the second panel: keys plain, list positions in brackets. */
  lemma RenderExample()
    ensures RenderRoute([Key("panels"), Index(1)]) == "panels.[1]"
  {
    assert Text.NatToString(1) == "1";
    RenderSingle(Index(1));
    RenderCons(Key("panels"), [Index(1)]);
    assert [Key("panels")] + [Index(1)] == [Key("panels"), Index(1)];
  }

  // ---------------------------------------------------------------------------
  // find

  /** Field names whose values `find` never reports. */
  const NonLeafNodes: seq<string> := ["rows", "panels", "targets", "tags", "groupBy", "list", "links"]

  /** `str(node.path)`: the last key of the route. */
  function LastName(n: Node): string
  {
    if n.route != [] && n.route[|n.route| - 1].Key? then n.route[|n.route| - 1].name else ""
  }

  /** The types `find` inspects: str, int (bool included) and list. */
  predicate IsScalar(v: Value)
  {
    v.Str? || v.Int? || v.Bool? || v.List?
  }

  /** Whether `find` reports a match of `$..*`. */
  predicate Reported(needle: string, n: Node, munch: bool)
  {
    !n.value.Null? && LastName(n) !in NonLeafNodes && IsScalar(n.value)
    && Text.Contains(PyStr(n.value, munch), needle)
  }

  /** The matches `find` reports, in enumeration order. */
  function FilterMatches(needle: string, nodes: seq<Node>, munch: bool): (r: seq<Node>)
    ensures |r| <= |nodes|
  {
    if nodes == [] then []
    else
      var last := nodes[|nodes| - 1];
      FilterMatches(needle, nodes[..|nodes| - 1], munch) + (if Reported(needle, last, munch) then [last] else [])
  }

  /** One more enumerated node is reported after the earlier ones, or not at all. */
  lemma FilterMatchesSnoc(needle: string, nodes: seq<Node>, node: Node, munch: bool)
    ensures FilterMatches(needle, nodes + [node], munch)
            == FilterMatches(needle, nodes, munch) + (if Reported(needle, node, munch) then [node] else [])
  {
    assert (nodes + [node])[..|nodes|] == nodes;
  }

  /** The reported matches are exactly the enumerated nodes `find` reports. */
  lemma {:induction false} FilterMatchesMembers(needle: string, nodes: seq<Node>, munch: bool)
    ensures forall n :: n in FilterMatches(needle, nodes, munch) <==> n in nodes && Reported(needle, n, munch)
    decreases |nodes|
  {
    if nodes != [] {
      var init := nodes[..|nodes| - 1];
      FilterMatchesMembers(needle, init, munch);
      assert nodes == init + [nodes[|nodes| - 1]];
    }
  }

  /**
   * `find` as written: the fast reject tests the needle against `str()` of the
   * whole document. That text shows strings through `repr()`, which escapes
   * backslashes, quotes and control characters, so a needle holding one of
   * them can be missing from it although a field value contains it.
   */
  function FindAsWritten(needle: string, haystack: Value, munch: bool): (r: seq<Node>)
    ensures !Text.Contains(PyStr(haystack, munch), needle) ==> r == []
    ensures forall n :: n in r ==> n in Nodes(haystack) && Reported(needle, n, munch)
  {
    if !Text.Contains(PyStr(haystack, munch), needle) then []
    else
      FilterMatchesMembers(needle, Nodes(haystack), munch);
      FilterMatches(needle, Nodes(haystack), munch)
  }

  /** A document with one field that holds a string. */
  function OneField(key: string, s: string): Value
  {
    Object([(key, Str(s))])
  }

  /** `$..*` of a one-field document is that field alone. */
  lemma OneFieldNodes(key: string, s: string)
    ensures Nodes(OneField(key, s)) == [Node([Key(key)], Str(s))]
  {
    var h := OneField(key, s);
    var groups := seq(1, i requires 0 <= i < 1 => Under(Key(h.fields[i].0), Nodes(h.fields[i].1)));
    assert Nodes(Str(s)) == [];
    assert groups == [[]];
    assert Flatten(groups) == [];
  }

  /** The field of a one-field document is a match when it contains the needle. */
  lemma OneFieldMatch(needle: string, key: string, s: string)
    requires key !in NonLeafNodes && Text.Contains(s, needle)
    ensures FilterMatches(needle, Nodes(OneField(key, s)), true) == [Node([Key(key)], Str(s))]
  {
    OneFieldNodes(key, s);
    var n := Node([Key(key)], Str(s));
    assert LastName(n) == key;
    assert Reported(needle, n, true);
    assert [n][..0] == [];
  }

  /**
   * The fast reject as written discards every match of a needle that holds
   * a character `repr()` escapes, other than a quote or a backslash: a
   * newline, a tab, any other control character, or a non-printable
   * character above U+00A0. The document's text shows that character only as
   * an escape sequence, so it never contains the needle.
   */
  lemma FindAsWrittenLosesEscaped(needle: string, haystack: Value, munch: bool, c: char)
    requires c in needle && Escapable(c) && !PrintableAscii(c) && !haystack.Str?
    ensures FindAsWritten(needle, haystack, munch) == []
  {
    ReprLacks(haystack, munch, c);
    Text.MissingCharNotContained(PyStr(haystack, munch), needle, c);
  }

  /** A field spanning two lines is lost when the needle spans them too. */
  lemma FindAsWrittenLosesMatch()
    ensures FindAsWritten("a\nb", OneField("q", "a\nb"), true) == []
    ensures FilterMatches("a\nb", Nodes(OneField("q", "a\nb")), true) == [Node([Key("q")], Str("a\nb"))]
  {
    assert "a\nb"[1] == '\n';
    Text.ContainsSelf("a\nb");
    FindAsWrittenLosesEscaped("a\nb", OneField("q", "a\nb"), true, '\n');
    OneFieldMatch("a\nb", "q", "a\nb");
  }

  /** An ideographic space (U+3000) between two letters is lost the same way. */
  lemma FindAsWrittenLosesWideMatch()
    ensures FindAsWritten("\U{3000}", OneField("a", "x\U{3000}y"), true) == []
    ensures FilterMatches("\U{3000}", Nodes(OneField("a", "x\U{3000}y")), true)
            == [Node([Key("a")], Str("x\U{3000}y"))]
  {
    assert Text.OccursAt("x\U{3000}y", "\U{3000}", 1);
    FindAsWrittenLosesEscaped("\U{3000}", OneField("a", "x\U{3000}y"), true, '\U{3000}');
    OneFieldMatch("\U{3000}", "a", "x\U{3000}y");
  }

  // ---------------------------------------------------------------------------
  // The text of a document contains the text of every value in it

  lemma ContainsWrapped(body: string, munch: bool)
    ensures Text.Contains(if munch then "Munch(" + body + ")" else body, body)
  {
    if munch {
      Text.ContainsInfix("Munch(", body, ")");
    } else {
      Text.ContainsSelf(body);
    }
  }

  /** The `repr()` of a dict or list contains the `repr()` of each member. */
  lemma ReprContainsChild(v: Value, g: nat, munch: bool)
    requires (v.Object? && g < |v.fields|) || (v.List? && g < |v.items|)
    ensures Text.Contains(PyRepr(v, munch), PyRepr(if v.Object? then v.fields[g].1 else v.items[g], munch))
  {
    if v.Object? {
      var fields := v.fields;
      var parts := seq(|fields|, i requires 0 <= i < |fields| => StrRepr(fields[i].0) + ": " + PyRepr(fields[i].1, munch));
      var joined := Text.Join(parts, ", ");
      var body := "{" + joined + "}";
      Text.ContainsInfix(StrRepr(fields[g].0) + ": ", PyRepr(fields[g].1, munch), "");
      assert StrRepr(fields[g].0) + ": " + PyRepr(fields[g].1, munch) + "" == parts[g];
      Text.JoinContainsPart(parts, ", ", g);
      Text.ContainsTrans(PyRepr(fields[g].1, munch), parts[g], joined);
      Text.ContainsInfix("{", joined, "}");
      Text.ContainsTrans(PyRepr(fields[g].1, munch), joined, body);
      ContainsWrapped(body, munch);
      Text.ContainsTrans(PyRepr(fields[g].1, munch), body, PyRepr(v, munch));
    } else {
      var items := v.items;
      var parts := seq(|items|, i requires 0 <= i < |items| => PyRepr(items[i], munch));
      var joined := Text.Join(parts, ", ");
      Text.JoinContainsPart(parts, ", ", g);
      Text.ContainsInfix("[", joined, "]");
      Text.ContainsTrans(PyRepr(items[g], munch), joined, PyRepr(v, munch));
    }
  }

  /** The `repr()` of a document contains the `repr()` of every `$..*` match. */
  lemma {:induction false} ReprContainsNode(v: Value, n: Node, munch: bool)
    requires n in Nodes(v)
    ensures Text.Contains(PyRepr(v, munch), PyRepr(n.value, munch))
    decreases v
  {
    match v
    case Object(fields) =>
      var groups := seq(|fields|, i requires 0 <= i < |fields| => Under(Key(fields[i].0), Nodes(fields[i].1)));
      if n in FieldNodes(fields) {
        var i :| 0 <= i < |fields| && FieldNodes(fields)[i] == n;
        ReprContainsChild(v, i, munch);
      } else {
        assert n in Flatten(groups);
        FlattenMember(groups, n);
        var g :| 0 <= g < |groups| && n in groups[g];
        var k :| 0 <= k < |groups[g]| && groups[g][k] == n;
        var m := Nodes(fields[g].1)[k];
        ReprContainsNode(fields[g].1, m, munch);
        ReprContainsChild(v, g, munch);
        Text.ContainsTrans(PyRepr(n.value, munch), PyRepr(fields[g].1, munch), PyRepr(v, munch));
      }
    case List(items) =>
      var groups := seq(|items|, i requires 0 <= i < |items| => Under(Index(i), Nodes(items[i])));
      FlattenMember(groups, n);
      var g :| 0 <= g < |groups| && n in groups[g];
      var k :| 0 <= k < |groups[g]| && groups[g][k] == n;
      var m := Nodes(items[g])[k];
      ReprContainsNode(items[g], m, munch);
      ReprContainsChild(v, g, munch);
      Text.ContainsTrans(PyRepr(n.value, munch), PyRepr(items[g], munch), PyRepr(v, munch));
  }

  /** A needle reported for some match occurs in the text of the whole document,
      provided `repr()` does not rewrite any of its characters. */
  lemma ReportedInDocument(needle: string, v: Value, n: Node, munch: bool)
    requires Plain(needle) && n in Nodes(v) && Reported(needle, n, munch)
    ensures Text.Contains(PyStr(v, munch), needle)
  {
    assert !v.Str?;
    ReprContainsNode(v, n, munch);
    if n.value.Str? {
      var s := n.value.s;
      var dq := DoubleQuoted(s);
      StrReprShows(s);
      EscapeKeepsPlain(s, needle, dq);
      Text.ContainsTrans(needle, Escape(s, dq), StrRepr(s));
      Text.ContainsTrans(needle, StrRepr(s), PyRepr(v, munch));
    } else {
      Text.ContainsTrans(needle, PyRepr(n.value, munch), PyRepr(v, munch));
    }
  }

  /** With a plain needle, the fast reject never discards a match. */
  lemma {:induction false} FastRejectSound(needle: string, v: Value, munch: bool)
    requires Plain(needle) && !Text.Contains(PyStr(v, munch), needle)
    ensures FilterMatches(needle, Nodes(v), munch) == []
  {
    var r := FilterMatches(needle, Nodes(v), munch);
    if r != [] {
      FilterMatchesMembers(needle, Nodes(v), munch);
      assert r[0] in r;
      ReportedInDocument(needle, v, r[0], munch);
    }
  }

  /** For plain needles the code as written reports every match. */
  lemma FindAsWrittenPlain(needle: string, v: Value, munch: bool)
    requires Plain(needle)
    ensures FindAsWritten(needle, v, munch) == FilterMatches(needle, Nodes(v), munch)
  {
    if !Text.Contains(PyStr(v, munch), needle) {
      FastRejectSound(needle, v, munch);
    }
  }

  /** The loop of `find`: walks the enumerated nodes and keeps the reported ones. */
  method FilterNodes(needle: string, nodes: seq<Node>, munch: bool) returns (matches: seq<Node>)
    ensures matches == FilterMatches(needle, nodes, munch)
  {
    matches := [];
    var i := 0;
    while i < |nodes|
      invariant 0 <= i <= |nodes|
      invariant matches == FilterMatches(needle, nodes[..i], munch)
    {
      var node := nodes[i];
      FilterMatchesSnoc(needle, nodes[..i], node, munch);
      assert nodes[..i + 1] == nodes[..i] + [node];
      if node.value.Null? {
        // empty values are skipped
      } else if LastName(node) in NonLeafNodes {
        // containers of panels, targets and the like are skipped
      } else if IsScalar(node.value) {
        if Text.Contains(PyStr(node.value, munch), needle) {
          matches := matches + [node];
        }
      }
      i := i + 1;
    }
    assert nodes[..i] == nodes;
  }

  /** `JsonPathFinder.find` as written: the fast reject, then the loop. */
  method FindWithFastReject(needle: string, haystack: Value, munch: bool) returns (matches: seq<Node>)
    ensures matches == FindAsWritten(needle, haystack, munch)
  {
    if !Text.Contains(PyStr(haystack, munch), needle) {
      return [];
    }
    matches := FilterNodes(needle, Nodes(haystack), munch);
  }

  /**
   * `JsonPathFinder.find`, with the fast reject applied only to needles that
   * `repr()` leaves unchanged: the reported matches are exactly the non-null,
   * non-container leaf values outside the non-leaf fields whose text
   * contains the needle, in `$..*` order.
   */
  method Find(needle: string, haystack: Value, munch: bool) returns (matches: seq<Node>)
    ensures matches == FilterMatches(needle, Nodes(haystack), munch)
  {
    if Plain(needle) && !Text.Contains(PyStr(haystack, munch), needle) {
      FastRejectSound(needle, haystack, munch);
      return [];
    }
    matches := FilterNodes(needle, Nodes(haystack), munch);
  }
}
