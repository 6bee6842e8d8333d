/**
 * The graph route of the application module: the annotated atoms of a file
 * are sent to the model (at most twice) for an insight graph, and when both
 * calls fail a fallback graph is built locally, one node per atom and an edge
 * between consecutive atoms that share a tag. The result is cached in the
 * global graphs folder.
 */
module GraphBuilder {
  import opened Wrappers
  import opened Text
  import opened Json
  import opened Llm
  import opened Repair
  import opened Store

  const GraphAttempts: nat := 2
  const AtomsTextLimit: nat := 15000
  const TruncationMarker: string := "\n... [truncated]"
  const NodeTextLimit: nat := 100

  // ---------------------------------------------------------------------------
  // create_fallback_graph
  // ---------------------------------------------------------------------------

  /** The node id of atom i: its own "id", or "atom_i". */
  function NodeId(atom: Dict, i: nat): Value
  {
    Lookup(atom, "id", JStr("atom_" + NatStr(i)))
  }

  /** The node text: a string text longer than 100 characters is cut to 100 plus "...". */
  function NodeText(atom: Dict): Value
  {
    match Lookup(atom, "text", JStr(""))
    case JStr(s) => JStr(Ellipsize(s, NodeTextLimit))
    case v => v
  }

  function FallbackNode(atom: Dict, i: nat): Dict
  {
    map["id" := NodeId(atom, i), "text" := NodeText(atom),
        "speaker" := Lookup(atom, "speaker", JStr("unknown")),
        "insights" := Lookup(atom, "insights", JArr([])),
        "tags" := Lookup(atom, "tags", JArr([]))]
  }

  /** The nodes of the fallback graph: one per atom, in order. */
  function FallbackNodes(atoms: seq<Dict>): (r: seq<Value>)
    ensures |r| == |atoms|
  {
    seq(|atoms|, i requires 0 <= i < |atoms| => JObj(FallbackNode(atoms[i], i)))
  }

  /**
   * `set(v)` for a tags value: the items of a list, the one-character strings
   * of a string, the keys of a dict.
   */
  function Members(v: Value): set<Value>
  {
    match v
    case JArr(items) => set x | x in items
    case JStr(s) => set i | 0 <= i < |s| :: JStr([s[i]])
    case JObj(fields) => set k | k in fields :: JStr(k)
    case _ => {}
  }

  /** `set(atom.get("tags", [])) & set(prev.get("tags", []))`. */
  function SharedTags(prev: Dict, atom: Dict): set<Value>
  {
    Members(Lookup(atom, "tags", JArr([]))) * Members(Lookup(prev, "tags", JArr([])))
  }

  /** Atom i is joined to atom i-1: it has truthy tags and shares one with its predecessor. */
  predicate HasEdge(atoms: seq<Dict>, i: nat)
    requires i < |atoms|
  {
    i > 0 && Truthy(Lookup(atoms[i], "tags", JNull)) && SharedTags(atoms[i - 1], atoms[i]) != {}
  }

  function FallbackEdge(atoms: seq<Dict>, i: nat, tag: Value): Dict
    requires 0 < i < |atoms|
  {
    map["source" := NodeId(atoms[i - 1], i - 1), "target" := NodeId(atoms[i], i),
        "type" := JStr("shared_tag"), "label" := tag, "weight" := JNum(0.5)]
  }

  /** The indices i < n of the atoms joined to their predecessor, in order. */
  function EdgeTargets(atoms: seq<Dict>, n: nat): seq<nat>
    requires n <= |atoms|
  {
    if n == 0 then []
    else EdgeTargets(atoms, n - 1) + (if HasEdge(atoms, n - 1) then [n - 1] else [])
  }

  /** Every target is joined to its predecessor and lies between 1 and n-1. */
  lemma {:induction false} EdgeTargetsJoined(atoms: seq<Dict>, n: nat)
    requires n <= |atoms|
    ensures forall k :: 0 <= k < |EdgeTargets(atoms, n)| ==>
      0 < EdgeTargets(atoms, n)[k] < n && HasEdge(atoms, EdgeTargets(atoms, n)[k])
  {
    if n > 0 {
      EdgeTargetsJoined(atoms, n - 1);
      var t, t' := EdgeTargets(atoms, n), EdgeTargets(atoms, n - 1);
      if HasEdge(atoms, n - 1) {
        assert t == t' + [n - 1];
        assert forall k :: 0 <= k < |t'| ==> t[k] == t'[k];
      } else {
        assert t == t';
        assert forall k :: 0 <= k < |t| ==> t[k] == t'[k];
      }
    }
  }

  /** The targets are strictly increasing. */
  lemma {:induction false} EdgeTargetsIncreasing(atoms: seq<Dict>, n: nat)
    requires n <= |atoms|
    ensures forall k :: 0 <= k < |EdgeTargets(atoms, n)| ==> EdgeTargets(atoms, n)[k] < n
    ensures forall k, m :: 0 <= k < m < |EdgeTargets(atoms, n)| ==> EdgeTargets(atoms, n)[k] < EdgeTargets(atoms, n)[m]
  {
    if n > 0 {
      EdgeTargetsIncreasing(atoms, n - 1);
      var t, t' := EdgeTargets(atoms, n), EdgeTargets(atoms, n - 1);
      if HasEdge(atoms, n - 1) {
        assert t == t' + [n - 1];
        assert forall k :: 0 <= k < |t'| ==> t[k] == t'[k];
      } else {
        assert t == t';
        assert forall k :: 0 <= k < |t| ==> t[k] == t'[k];
      }
    }
  }

  /** Every joined atom below n is a target, and there are at most n-1 of them. */
  lemma {:induction false} EdgeTargetsComplete(atoms: seq<Dict>, n: nat)
    requires n <= |atoms|
    ensures forall i :: 0 <= i < n && HasEdge(atoms, i) ==> i in EdgeTargets(atoms, n)
    ensures |EdgeTargets(atoms, n)| <= if n == 0 then 0 else n - 1
  {
    if n > 0 {
      EdgeTargetsComplete(atoms, n - 1);
      var t, t' := EdgeTargets(atoms, n), EdgeTargets(atoms, n - 1);
      if HasEdge(atoms, n - 1) {
        assert t == t' + [n - 1];
        assert forall x :: x in t' ==> x in t;
        assert n - 1 in t;
      } else {
        assert t == t';
      }
    }
  }

  /** The targets are strictly increasing, each joined to its predecessor, and between 1 and n-1. */
  lemma EdgeTargetsShape(atoms: seq<Dict>, n: nat)
    requires n <= |atoms|
    ensures var t := EdgeTargets(atoms, n);
      && (forall k :: 0 <= k < |t| ==> 0 < t[k] < n && HasEdge(atoms, t[k]))
      && (forall k, m :: 0 <= k < m < |t| ==> t[k] < t[m])
      && (forall i :: 0 <= i < n && HasEdge(atoms, i) ==> i in t)
      && |t| <= if n == 0 then 0 else n - 1
  {
    EdgeTargetsJoined(atoms, n);
    EdgeTargetsIncreasing(atoms, n);
    EdgeTargetsComplete(atoms, n);
  }

  /** `e` is the edge into atom i: its label is one of the tags shared with atom i-1. */
  predicate IsFallbackEdge(atoms: seq<Dict>, i: nat, e: Value)
    requires 0 < i < |atoms|
  {
    e.JObj? && "label" in e.fields
    && e.fields == FallbackEdge(atoms, i, e.fields["label"])
    && e.fields["label"] in SharedTags(atoms[i - 1], atoms[i])
  }

  /** The edges built over the first n atoms: one per joined atom, in order. */
  predicate FallbackEdges(atoms: seq<Dict>, edges: seq<Value>, n: nat)
    requires n <= |atoms|
  {
    var t := EdgeTargets(atoms, n);
    |edges| == |t|
    && forall k :: 0 <= k < |edges| ==> 0 < t[k] < |atoms| && IsFallbackEdge(atoms, t[k], edges[k])
  }

  const GraphKeys: set<string> := {"nodes", "edges", "clusters", "themes", "journey", "facets"}

  /** What `create_fallback_graph` may return (the edge label is some shared tag). */
  predicate IsFallbackGraph(atoms: seq<Dict>, g: Dict)
  {
    g.Keys == GraphKeys
    && g["nodes"] == JArr(FallbackNodes(atoms))
    && g["edges"].JArr? && FallbackEdges(atoms, g["edges"].items, |atoms|)
    && g["clusters"] == JObj(map[])
    && g["themes"] == JArr([]) && g["journey"] == JArr([]) && g["facets"] == JArr([])
  }

  /**
   * Node i of the fallback graph is a dict whose id is atom i's id, or "atom_i",
   * and whose text is a string text of at most 100 characters kept as is, or
   * a longer one cut to its first 100 characters followed by "...".
   */
  lemma FallbackNodeIds(atoms: seq<Dict>)
    ensures forall i :: 0 <= i < |atoms| ==>
      FallbackNodes(atoms)[i].JObj? && FallbackNodes(atoms)[i].fields["id"] == NodeId(atoms[i], i)
    ensures forall i :: 0 <= i < |atoms| && Lookup(atoms[i], "text", JStr("")).JStr? ==>
      var s := Lookup(atoms[i], "text", JStr("")).s;
      var t := FallbackNodes(atoms)[i].fields["text"];
      t.JStr? && (|s| <= NodeTextLimit ==> t.s == s) &&
      (|s| > NodeTextLimit ==> |t.s| == NodeTextLimit + 3 && StartsWith(t.s, s[..NodeTextLimit]) && EndsWith(t.s, "..."))
  {
  }

  /**
   * The fallback edges number at most n-1; edge k goes from the node of some
   * atom i-1 to the node of atom i, is typed "shared_tag" with weight 0.5, and
   * is labelled with a tag the two atoms share.
   */
  lemma FallbackEdgesShape(atoms: seq<Dict>, edges: seq<Value>)
    requires FallbackEdges(atoms, edges, |atoms|)
    ensures |edges| <= if atoms == [] then 0 else |atoms| - 1
    ensures forall k :: 0 <= k < |edges| ==>
              edges[k].JObj? &&
              var e := edges[k].fields;
              exists i :: 0 < i < |atoms|
                && e["source"] == NodeId(atoms[i - 1], i - 1) && e["target"] == NodeId(atoms[i], i)
                && e["type"] == JStr("shared_tag") && e["weight"] == JNum(0.5)
                && e["label"] in SharedTags(atoms[i - 1], atoms[i])
  {
    EdgeTargetsShape(atoms, |atoms|);
    var t := EdgeTargets(atoms, |atoms|);
    forall k | 0 <= k < |edges|
      ensures edges[k].JObj? &&
              var e := edges[k].fields;
              exists i :: 0 < i < |atoms|
                && e["source"] == NodeId(atoms[i - 1], i - 1) && e["target"] == NodeId(atoms[i], i)
                && e["type"] == JStr("shared_tag") && e["weight"] == JNum(0.5)
                && e["label"] in SharedTags(atoms[i - 1], atoms[i])
    {
      var i := t[k];
      assert IsFallbackEdge(atoms, i, edges[k]);
    }
  }

  /** `create_fallback_graph`: the node and edge loop over the atoms. */
  method CreateFallbackGraph(atoms: seq<Dict>) returns (graph: Dict)
    ensures IsFallbackGraph(atoms, graph)
  {
    var nodes: seq<Value> := [];
    var edges: seq<Value> := [];
    for i := 0 to |atoms|
      invariant |nodes| == i
      invariant forall j :: 0 <= j < i ==> nodes[j] == JObj(FallbackNode(atoms[j], j))
      invariant FallbackEdges(atoms, edges, i)
    {
      var atom := atoms[i];
      nodes := nodes + [JObj(FallbackNode(atom, i))];
      if i > 0 && Truthy(Lookup(atom, "tags", JNull)) {
        var shared := SharedTags(atoms[i - 1], atom);
        if shared != {} {
          var tag :| tag in shared;
          edges := edges + [JObj(FallbackEdge(atoms, i, tag))];
          assert IsFallbackEdge(atoms, i, edges[|edges| - 1]);
        }
      }
    }
    assert nodes == FallbackNodes(atoms);
    graph := map["nodes" := JArr(nodes), "edges" := JArr(edges), "clusters" := JObj(map[]),
                 "themes" := JArr([]), "journey" := JArr([]), "facets" := JArr([])];
  }

  // ---------------------------------------------------------------------------
  // run_llm_graph_builder
  // ---------------------------------------------------------------------------

  /** The atoms text placed in the prompt: serialised atoms are cut at 15000 characters and marked. */
  function AtomsText(dumped: string): (t: string)
    ensures |dumped| <= AtomsTextLimit ==> t == dumped
    ensures |dumped| > AtomsTextLimit ==>
              |t| == AtomsTextLimit + |TruncationMarker|
              && StartsWith(t, dumped[..AtomsTextLimit]) && EndsWith(t, TruncationMarker)
  {
    if |dumped| > AtomsTextLimit then dumped[..AtomsTextLimit] + TruncationMarker else dumped
  }

  /** `graph_data["nodes"]` and `graph_data["edges"]` replaced by `[]` unless they are lists. */
  function WithListFields(g: Dict): Dict
  {
    var g1 := if "nodes" in g && g["nodes"].JArr? then g else g["nodes" := JArr([])];
    if "edges" in g1 && g1["edges"].JArr? then g1 else g1["edges" := JArr([])]
  }

  /**
   * The model's graph keeps every field except a non-list "nodes" or "edges",
   * which becomes `[]`; both are lists afterwards.
   */
  lemma WithListFieldsShape(g: Dict)
    ensures var r := WithListFields(g);
      && r.Keys == g.Keys + {"nodes", "edges"}
      && r["nodes"].JArr? && r["edges"].JArr?
      && (forall k :: k in g && k != "nodes" && k != "edges" ==> r[k] == g[k])
      && ("nodes" in g && g["nodes"].JArr? ==> r["nodes"] == g["nodes"])
      && ("edges" in g && g["edges"].JArr? ==> r["edges"] == g["edges"])
  {
  }

  /**
   * One attempt: only a reply that parses to a dict succeeds (`graph_data.get`
   * raises on anything else).
   */
  function GraphAttempt(o: Outcome): Option<Dict>
  {
    if o.Parsed? && o.value.JObj? then Some(WithListFields(o.value.fields)) else None
  }

  /**
   * What `run_llm_graph_builder` returns after `calls` model calls: the first
   * successful attempt's graph, or after two failures the fallback graph.
   * The fallback raises (`None`) unless the value is a list of dicts:
   * `atom.get` fails on any other item, `enumerate` on a value that is not
   * iterable.
   */
  predicate GraphBuilt(annotated: Value, ask: Ask, payload: string, start: nat, graph: Option<Dict>, calls: nat)
  {
    1 <= calls <= GraphAttempts
    && (calls == 2 ==> GraphAttempt(ask(start, payload)).None?)
    && match GraphAttempt(ask(start + calls - 1, payload))
       case Some(g) => graph == Some(g)
       case None =>
         calls == GraphAttempts
         && (graph.Some? <==> IsAtomList(annotated))
         && (graph.Some? ==> IsFallbackGraph(AtomDicts(annotated), graph.value))
  }

  /** Whatever the builder returns has list-valued "nodes" and "edges". */
  lemma GraphBuiltHasLists(annotated: Value, ask: Ask, payload: string, start: nat, graph: Dict, calls: nat)
    requires GraphBuilt(annotated, ask, payload, start, Some(graph), calls)
    ensures "nodes" in graph && graph["nodes"].JArr?
    ensures "edges" in graph && graph["edges"].JArr?
  {
    var o := ask(start + calls - 1, payload);
    if o.Parsed? && o.value.JObj? {
      WithListFieldsShape(o.value.fields);
    }
  }

  /**
   * `run_llm_graph_builder` on the loaded annotated value: `None` stands for
   * the exception the fallback raises on a value that is not a list of dicts.
   */
  method RunGraphBuilder(annotated: Value, ask: Ask, dumps: Serializer, start: nat)
    returns (graph: Option<Dict>, calls: nat)
    ensures GraphBuilt(annotated, ask, AtomsText(dumps(annotated)), start, graph, calls)
  {
    var text := dumps(annotated);
    if |text| > AtomsTextLimit {
      text := text[..AtomsTextLimit] + TruncationMarker;
    }
    calls := 0;
    while calls < GraphAttempts
      invariant calls <= GraphAttempts
      invariant forall c :: start <= c < start + calls ==> GraphAttempt(ask(c, text)).None?
    {
      var outcome := ask(start + calls, text);
      calls := calls + 1;
      if outcome.Parsed? && outcome.value.JObj? {
        var g := outcome.value.fields;
        if !("nodes" in g && g["nodes"].JArr?) {
          g := g["nodes" := JArr([])];
        }
        if !("edges" in g && g["edges"].JArr?) {
          g := g["edges" := JArr([])];
        }
        return Some(g), calls;
      }
    }
    if !IsAtomList(annotated) {
      return None, calls;
    }
    var fallback := CreateFallbackGraph(AtomDicts(annotated));
    graph := Some(fallback);
  }

  // ---------------------------------------------------------------------------
  // The /graph-build endpoint
  // ---------------------------------------------------------------------------

  function AnnotatedFile(filename: string): Key { Key(Global, Annotated, Renamed(filename, ".json")) }
  function GraphFile(filename: string): Key { Key(Global, Graphs, Renamed(filename, ".json")) }

  const EmptyGraph: Dict :=
    map["nodes" := JArr([]), "edges" := JArr([]), "clusters" := JObj(map[]),
        "themes" := JArr([]), "journey" := JArr([]), "facets" := JArr([])]

  /** The annotated file holds a list of dicts. */
  predicate IsAtomList(v: Value)
  {
    v.JArr? && forall i :: 0 <= i < |v.items| ==> v.items[i].JObj?
  }

  function AtomDicts(v: Value): (r: seq<Dict>)
    requires IsAtomList(v)
    ensures |r| == |v.items|
  {
    seq(|v.items|, i requires 0 <= i < |v.items| => v.items[i].fields)
  }

  /**
   * `build_graph`: 400 without a filename, 404 without annotated atoms, the
   * empty graph (not cached) for a falsy loaded value, the cached graph
   * without a model call, and otherwise the built graph, which is written to
   * the cache. A file that does not parse, or a fallback that raises, is
   * answered 500 with nothing written.
   */
  method BuildGraph(disk: Disk, filename: string, oracle: Oracle, parse: Parser, dumps: Serializer, start: nat)
    returns (resp: Response, calls: nat, ghost built: Option<Dict>)
    modifies disk
    ensures filename == "" ==> resp == HttpError(400) && calls == 0 && disk.files == old(disk.files)
    ensures filename != "" && AnnotatedFile(filename) !in old(disk.files) ==>
              resp == HttpError(404) && calls == 0 && disk.files == old(disk.files)
    ensures resp.Ok? && calls == 0 ==> disk.files == old(disk.files)
    ensures filename != "" && AnnotatedFile(filename) in old(disk.files) ==>
              match parse(old(disk.files)[AnnotatedFile(filename)])
              case None => resp == HttpError(500) && calls == 0 && disk.files == old(disk.files)
              case Some(v) =>
                if !Truthy(v) then resp == Ok(JObj(EmptyGraph)) && calls == 0
                else if GraphFile(filename) in old(disk.files) then
                  calls == 0 && disk.files == old(disk.files)
                  && resp == (match parse(old(disk.files)[GraphFile(filename)])
                              case None => HttpError(500)
                              case Some(g) => Ok(g))
                else
                  GraphBuilt(v, Asking(oracle, parse, CleanForParse), AtomsText(dumps(v)), start, built, calls)
                  && match built
                     case None => resp == HttpError(500) && disk.files == old(disk.files)
                     case Some(g) =>
                       resp == Ok(JObj(g)) && disk.files == old(disk.files)[GraphFile(filename) := dumps(JObj(g))]
  {
    built := None;
    if filename == "" {
      return HttpError(400), 0, built;
    }
    var annotated := AnnotatedFile(filename);
    if annotated !in disk.files {
      return HttpError(404), 0, built;
    }
    var loaded := parse(disk.files[annotated]);
    if loaded.None? {
      return HttpError(500), 0, built;
    }
    var v := loaded.value;
    if !Truthy(v) {
      return Ok(JObj(EmptyGraph)), 0, built;
    }
    var graphKey := GraphFile(filename);
    if graphKey in disk.files {
      var cached := parse(disk.files[graphKey]);
      if cached.None? {
        return HttpError(500), 0, built;
      }
      return Ok(cached.value), 0, built;
    }
    var graph;
    graph, calls := RunGraphBuilder(v, Asking(oracle, parse, CleanForParse), dumps, start);
    built := graph;
    if graph.None? {
      return HttpError(500), calls, built;
    }
    disk.files := disk.files[graphKey := dumps(JObj(graph.value))];
    resp := Ok(JObj(graph.value));
  }
}
