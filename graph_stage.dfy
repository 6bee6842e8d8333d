/**
 * The graph view's data helpers: turning a stored graph into the nodes and
 * links the force-directed view draws, finding a node's neighbours, and
 * sizing a node by its number of links. Values are JavaScript values; a
 * TypeError (reading a property of `null` or `undefined`) is an outcome.
 */
module GraphStage {
  import opened Wrappers
  import opened Seqs

  /** A JavaScript value. Strict equality and `Set` membership are structural equality here. */
  datatype Js = Undefined | Null | Bool(b: bool) | Num(n: int) | Str(s: string) | Arr(items: seq<Js>)
              | Obj(fields: map<string, Js>)

  predicate Truthy(v: Js)
  {
    match v
    case Undefined => false
    case Null => false
    case Bool(b) => b
    case Num(n) => n != 0
    case Str(s) => s != ""
    case _ => true
  }

  /** `typeof v === 'object'`, which holds for `null` as well. */
  predicate IsObjectType(v: Js)
  {
    v.Null? || v.Arr? || v.Obj?
  }

  predicate IsNullish(v: Js)
  {
    v.Undefined? || v.Null?
  }

  /** `v.key` on a value that is neither `null` nor `undefined`. */
  function Field(v: Js, key: string): Js
  {
    if v.Obj? && key in v.fields then v.fields[key] else Undefined
  }

  /** `v.key`, where `None` is the TypeError thrown on `null` and `undefined`. */
  function Prop(v: Js, key: string): (r: Option<Js>)
    ensures r.None? <==> IsNullish(v)
    ensures r.Some? ==> r.value == Field(v, key)
  {
    if IsNullish(v) then None else Some(Field(v, key))
  }

  /** The id a link end names: `.id` of an object end, the end itself otherwise. */
  function EndpointId(link: Js, end: string): (r: Option<Js>)
    ensures r.None? <==> IsNullish(link) || Field(link, end).Null?
  {
    match Prop(link, end)
    case None => None
    case Some(e) => if IsObjectType(e) then Prop(e, "id") else Some(e)
  }

  /** The same id where reading it cannot fail, with `undefined` for a `null` end. */
  function SafeEndpointId(link: Js, end: string): (r: Js)
    ensures EndpointId(link, end).Some? ==> EndpointId(link, end).value == r
  {
    var e := Field(link, end);
    if e.Null? then Undefined else if IsObjectType(e) then Field(e, "id") else e
  }

  /** A graph as the view holds it. */
  datatype Graph = Graph(nodes: seq<Js>, links: seq<Js>)

  /** What a call does: return a value or throw. */
  datatype Outcome<T> = Returns(value: T) | Throws

  // ---------------------------------------------------------------------------
  // formatGraphData
  // ---------------------------------------------------------------------------

  /** `rawGraph.nodes` when it is an array, else no nodes. */
  function InputNodes(raw: Js): seq<Js>
  {
    if Field(raw, "nodes").Arr? then Field(raw, "nodes").items else []
  }

  /** `rawGraph.edges` when it is an array, else `rawGraph.links` when that is one, else no links. */
  function InputEdges(raw: Js): (r: seq<Js>)
    ensures Field(raw, "edges").Arr? ==> r == Field(raw, "edges").items
    ensures !Field(raw, "edges").Arr? && Field(raw, "links").Arr? ==> r == Field(raw, "links").items
    ensures !Field(raw, "edges").Arr? && !Field(raw, "links").Arr? ==> r == []
  {
    var edges := Field(raw, "edges");
    var links := Field(raw, "links");
    if edges.Arr? then edges.items else if links.Arr? then links.items else []
  }

  /** A node the view keeps: an object with a defined id. */
  predicate IsValidNode(node: Js)
  {
    Truthy(node) && IsObjectType(node) && Field(node, "id") != Undefined
  }

  /** `new Set(nodes.map(n => n.id))`. */
  function NodeIds(nodes: seq<Js>): set<Js>
  {
    set n | n in nodes :: Field(n, "id")
  }

  /** The link filter's callback as written: both ends are read before the link's own shape is checked. */
  function KeepLink(link: Js, ids: set<Js>): (r: Outcome<bool>)
    ensures r.Throws? <==> EndpointId(link, "source").None? || EndpointId(link, "target").None?
  {
    match EndpointId(link, "source")
    case None => Throws
    case Some(source) =>
      match EndpointId(link, "target")
      case None => Throws
      case Some(target) => Returns(Truthy(link) && IsObjectType(link) && source in ids && target in ids)
  }

  /** The links the callback keeps. */
  function Kept(ids: set<Js>): Js -> bool
  {
    (link: Js) => KeepLink(link, ids) == Returns(true)
  }

  /** `edges.filter(...)`: throws when the callback throws on some link. */
  function FilterLinks(edges: seq<Js>, ids: set<Js>): (r: Outcome<seq<Js>>)
  {
    if edges == [] then Returns([])
    else
      match FilterLinks(edges[..|edges| - 1], ids)
      case Throws => Throws
      case Returns(kept) =>
        match KeepLink(edges[|edges| - 1], ids)
        case Throws => Throws
        case Returns(keep) => Returns(kept + if keep then [edges[|edges| - 1]] else [])
  }

  /** The filter throws exactly when some link throws, and otherwise keeps the links the callback accepts. */
  lemma {:induction false} FilterLinksSpec(edges: seq<Js>, ids: set<Js>)
    ensures FilterLinks(edges, ids).Throws? <==> exists i :: 0 <= i < |edges| && KeepLink(edges[i], ids).Throws?
    ensures FilterLinks(edges, ids).Returns? ==> FilterLinks(edges, ids).value == Filter(edges, Kept(ids))
  {
    if edges != [] {
      var init := edges[..|edges| - 1];
      FilterLinksSpec(init, ids);
      assert forall i :: 0 <= i < |init| ==> init[i] == edges[i];
    }
  }

  /** `formatGraphData`: `null` for a falsy graph, else the valid nodes and the links between them. */
  function FormatGraphData(raw: Js): (r: Outcome<Option<Graph>>)
    ensures r == Returns(None) <==> !Truthy(raw)
  {
    if !Truthy(raw) then Returns(None)
    else
      var nodes := Filter(InputNodes(raw), IsValidNode);
      match FilterLinks(InputEdges(raw), NodeIds(nodes))
      case Throws => Throws
      case Returns(links) => Returns(Some(Graph(nodes, links)))
  }

  /** The returned nodes are exactly the valid input nodes. */
  lemma FormattedNodes(raw: Js, node: Js)
    requires FormatGraphData(raw).Returns? && FormatGraphData(raw).value.Some?
    ensures node in FormatGraphData(raw).value.value.nodes <==> node in InputNodes(raw) && IsValidNode(node)
  {
    FilterMembers(InputNodes(raw), IsValidNode);
  }

  /** Both ends of every returned link name a returned node. */
  lemma FormattedLinksResolve(raw: Js, link: Js)
    requires FormatGraphData(raw).Returns? && FormatGraphData(raw).value.Some?
    requires link in FormatGraphData(raw).value.value.links
    ensures var g := FormatGraphData(raw).value.value;
      EndpointId(link, "source").Some? && EndpointId(link, "source").value in NodeIds(g.nodes)
      && EndpointId(link, "target").Some? && EndpointId(link, "target").value in NodeIds(g.nodes)
  {
    var nodes := Filter(InputNodes(raw), IsValidNode);
    FilterLinksSpec(InputEdges(raw), NodeIds(nodes));
    FilterMembers(InputEdges(raw), Kept(NodeIds(nodes)));
  }

  /**
   * The call throws exactly when the graph is truthy and some input link is
   * `null` or `undefined`, or has a `null` end.
   */
  lemma FormatThrowsIff(raw: Js)
    ensures FormatGraphData(raw).Throws? <==>
      Truthy(raw) && exists i :: (0 <= i < |InputEdges(raw)| &&
        (IsNullish(InputEdges(raw)[i]) || Field(InputEdges(raw)[i], "source").Null? || Field(InputEdges(raw)[i], "target").Null?))
  {
    if Truthy(raw) {
      FilterLinksSpec(InputEdges(raw), NodeIds(Filter(InputNodes(raw), IsValidNode)));
    }
  }

  /** A graph with one node and a `null` edge: the call throws instead of dropping the edge. */
  lemma NullEdgeThrows()
    ensures FormatGraphData(Obj(map["nodes" := Arr([Obj(map["id" := Num(1)])]), "edges" := Arr([Null])])).Throws?
  {
    var raw := Obj(map["nodes" := Arr([Obj(map["id" := Num(1)])]), "edges" := Arr([Null])]);
    assert InputEdges(raw) == [Null];
    FormatThrowsIff(raw);
  }

  /** The evidently intended callback: the link's shape first, and `?.` on its ends. */
  predicate LinkResolves(link: Js, ids: set<Js>)
  {
    Truthy(link) && IsObjectType(link) && SafeEndpointId(link, "source") in ids && SafeEndpointId(link, "target") in ids
  }

  /** The links that callback keeps. */
  function KeptChecked(ids: set<Js>): Js -> bool
  {
    (link: Js) => LinkResolves(link, ids)
  }

  /** `formatGraphData` with that callback: it never throws. */
  function FormatGraphDataChecked(raw: Js): (r: Option<Graph>)
    ensures r.None? <==> !Truthy(raw)
  {
    if !Truthy(raw) then None
    else
      var nodes := Filter(InputNodes(raw), IsValidNode);
      Some(Graph(nodes, Filter(InputEdges(raw), KeptChecked(NodeIds(nodes)))))
  }

  /** Where the code as written returns, the corrected one returns the same graph. */
  lemma CheckedAgrees(raw: Js)
    requires FormatGraphData(raw).Returns?
    ensures FormatGraphData(raw).value == FormatGraphDataChecked(raw)
  {
    if Truthy(raw) {
      var ids := NodeIds(Filter(InputNodes(raw), IsValidNode));
      var edges := InputEdges(raw);
      FilterLinksSpec(edges, ids);
      FilterCongruent(edges, Kept(ids), KeptChecked(ids));
    }
  }

  /** The corrected call drops bad links: both ends of every returned link name a returned node. */
  lemma CheckedLinksResolve(raw: Js, link: Js)
    requires FormatGraphDataChecked(raw).Some?
    requires link in FormatGraphDataChecked(raw).value.links
    ensures var g := FormatGraphDataChecked(raw).value;
      SafeEndpointId(link, "source") in NodeIds(g.nodes) && SafeEndpointId(link, "target") in NodeIds(g.nodes)
      && Truthy(link) && IsObjectType(link)
  {
    var nodes := Filter(InputNodes(raw), IsValidNode);
    FilterMembers(InputEdges(raw), KeptChecked(NodeIds(nodes)));
  }

  // ---------------------------------------------------------------------------
  // Neighbours and node size
  // ---------------------------------------------------------------------------

  /** A graph whose reads cannot throw: every node is an actual value and every link end can be read. */
  predicate Readable(g: Graph)
  {
    (forall i :: 0 <= i < |g.nodes| ==> !IsNullish(g.nodes[i]))
    && (forall i :: 0 <= i < |g.links| ==>
          EndpointId(g.links[i], "source").Some? && EndpointId(g.links[i], "target").Some?)
  }

  /** Every graph the formatter returns is readable. */
  lemma FormattedIsReadable(raw: Js)
    requires FormatGraphDataChecked(raw).Some?
    ensures Readable(FormatGraphDataChecked(raw).value)
  {
    var g := FormatGraphDataChecked(raw).value;
    var ids := NodeIds(g.nodes);
    FilterMembers(InputNodes(raw), IsValidNode);
    FilterMembers(InputEdges(raw), KeptChecked(ids));
    assert Undefined !in ids;
    forall i | 0 <= i < |g.nodes|
      ensures !IsNullish(g.nodes[i])
    {
      assert g.nodes[i] in g.nodes;
    }
    forall i | 0 <= i < |g.links|
      ensures EndpointId(g.links[i], "source").Some? && EndpointId(g.links[i], "target").Some?
    {
      assert g.links[i] in g.links;
      assert LinkResolves(g.links[i], ids);
    }
  }

  /** The link touches the node: one of its ends names it. */
  predicate Touches(link: Js, nodeId: Js)
  {
    SafeEndpointId(link, "source") == nodeId || SafeEndpointId(link, "target") == nodeId
  }

  /** The links that touch the node. */
  function Incident(nodeId: Js): Js -> bool
  {
    (link: Js) => Touches(link, nodeId)
  }

  /** The end of the link that is not the node. */
  function OtherEnd(nodeId: Js, link: Js): Js
  {
    if SafeEndpointId(link, "source") == nodeId then SafeEndpointId(link, "target") else SafeEndpointId(link, "source")
  }

  /** `nodes.find(n => n.id === id)`, `undefined` when there is none. */
  function FindById(nodes: seq<Js>, id: Js): (r: Js)
    ensures r == Undefined || (r in nodes && Field(r, "id") == id)
    ensures (exists i :: 0 <= i < |nodes| && Field(nodes[i], "id") == id) ==> r in nodes && Field(r, "id") == id
  {
    if nodes == [] then Undefined
    else if Field(nodes[0], "id") == id then nodes[0]
    else FindById(nodes[1..], id)
  }

  /** The lookup returns the first node with the id. */
  lemma {:induction false} FindByIdFirst(nodes: seq<Js>, id: Js, i: nat)
    requires i < |nodes| && Field(nodes[i], "id") == id
    requires forall k :: 0 <= k < i ==> Field(nodes[k], "id") != id
    ensures FindById(nodes, id) == nodes[i]
  {
    if i > 0 {
      FindByIdFirst(nodes[1..], id, i - 1);
    }
  }

  /** The node at the other end of a link. */
  function NeighbourOf(nodes: seq<Js>, nodeId: Js, link: Js): Js
  {
    FindById(nodes, OtherEnd(nodeId, link))
  }

  /** The lookup of the node at the other end of a link. */
  function Neighbour(nodes: seq<Js>, nodeId: Js): Js -> Js
  {
    (link: Js) => NeighbourOf(nodes, nodeId, link)
  }

  /**
   * `getConnectedNodes`: for each link touching the node, in order, the
   * first node whose id is the other end, dropping ends no node has; no
   * graph gives no neighbours.
   */
  function ConnectedNodes(graph: Option<Graph>, nodeId: Js): seq<Js>
    requires graph.Some? ==> Readable(graph.value)
  {
    if graph.None? then []
    else
      var g := graph.value;
      Filter(Map(Filter(g.links, Incident(nodeId)), Neighbour(g.nodes, nodeId)), Truthy)
  }

  /** Every neighbour is a node of the graph at the other end of a link touching the node. */
  lemma ConnectedNodesSound(g: Graph, nodeId: Js, n: Js)
    requires Readable(g)
    requires n in ConnectedNodes(Some(g), nodeId)
    ensures n in g.nodes
    ensures exists link :: link in g.links && Touches(link, nodeId) && Field(n, "id") == OtherEnd(nodeId, link)
  {
    FilterMapFilterFrom(g.links, Incident(nodeId), Neighbour(g.nodes, nodeId), Truthy, n);
  }

  /** A link touching the node whose other end some truthy node has contributes the first such node. */
  lemma ConnectedNodesComplete(g: Graph, nodeId: Js, link: Js)
    requires Readable(g)
    requires link in g.links && Touches(link, nodeId)
    requires Truthy(FindById(g.nodes, OtherEnd(nodeId, link)))
    ensures FindById(g.nodes, OtherEnd(nodeId, link)) in ConnectedNodes(Some(g), nodeId)
  {
    FilterMapFilterHas(g.links, Incident(nodeId), Neighbour(g.nodes, nodeId), Truthy, link);
  }

  /** How many links touch the node. */
  function Degree(links: seq<Js>, nodeId: Js): (d: nat)
    ensures d <= |links|
  {
    |Filter(links, Incident(nodeId))|
  }

  /** `nodeVal` for the node with the given id: three per link touching it, but never below 8. */
  function NodeVal(links: seq<Js>, nodeId: Js): (size: int)
    ensures size >= 8 && size >= 3 * Degree(links, nodeId)
    ensures size == 8 || size == 3 * Degree(links, nodeId)
  {
    var connections := Degree(links, nodeId);
    if 8 > connections * 3 then 8 else connections * 3
  }

  /** A node is drawn at least three units per neighbour the side panel lists for it. */
  lemma NodeValCoversNeighbours(g: Graph, nodeId: Js)
    requires Readable(g)
    ensures 3 * |ConnectedNodes(Some(g), nodeId)| <= NodeVal(g.links, nodeId)
  {
    var touching := Filter(g.links, Incident(nodeId));
    assert |Filter(Map(touching, Neighbour(g.nodes, nodeId)), Truthy)| <= |touching|;
  }
}
