/**
 * The graph router: a deterministic insight graph over a project's atoms (an
 * edge for every pair of atoms that share an insight (type, label) pair), and
 * the two single-call model routes that cluster atoms into initial themes and
 * style graph nodes.
 */
module PairGraph {
  import opened Wrappers
  import opened Text
  import opened Json
  import opened Llm
  import opened Repair
  import opened Store

  type Insight = (Value, Value)

  /** `{(i["type"], i["label"]) for i in node.get("insights", [])}` can be computed without raising. */
  predicate WellFormedInsights(node: Dict)
  {
    match Lookup(node, "insights", JArr([]))
    case JArr(items) =>
      forall x :: x in items ==>
        x.JObj? && "type" in x.fields && "label" in x.fields
        && Hashable(x.fields["type"]) && Hashable(x.fields["label"])
    case JStr(s) => s == []
    case JObj(fields) => fields == map[]
    case _ => false
  }

  /** The (type, label) pairs of a node's insights. */
  function InsightPairs(node: Dict): set<Insight>
  {
    match Lookup(node, "insights", JArr([]))
    case JArr(items) =>
      set x | x in items && x.JObj? && "type" in x.fields && "label" in x.fields
            :: (x.fields["type"], x.fields["label"])
    case _ => {}
  }

  /** `find_shared_insights`: the pairs both nodes carry. */
  function SharedInsights(a: Dict, b: Dict): (r: set<Insight>)
    ensures forall p :: p in r <==> p in InsightPairs(a) && p in InsightPairs(b)
  {
    InsightPairs(a) * InsightPairs(b)
  }

  /** Sharing is symmetric: the same pairs, whichever node comes first. */
  lemma SharedInsightsSymmetric(a: Dict, b: Dict)
    ensures SharedInsights(a, b) == SharedInsights(b, a)
  {
  }

  predicate Linked(nodes: seq<Dict>, i: nat, j: nat)
    requires i < |nodes| && j < |nodes|
  {
    SharedInsights(nodes[i], nodes[j]) != {}
  }

  /** The linked pairs (i, j') of row i with i < j' < j, in order. */
  function RowPairs(nodes: seq<Dict>, i: nat, j: nat): seq<(nat, nat)>
    requires i < |nodes| && j <= |nodes|
  {
    if j <= i + 1 then []
    else RowPairs(nodes, i, j - 1) + (if Linked(nodes, i, j - 1) then [(i, j - 1)] else [])
  }

  /** The linked pairs of the rows before row i, in lexicographic order. */
  function PairsBefore(nodes: seq<Dict>, i: nat): seq<(nat, nat)>
    requires i <= |nodes|
  {
    if i == 0 then [] else PairsBefore(nodes, i - 1) + RowPairs(nodes, i - 1, |nodes|)
  }

  /** Every linked pair i < j once: the order in which the nested loops add edges. */
  function LinkedPairs(nodes: seq<Dict>): seq<(nat, nat)>
  {
    PairsBefore(nodes, |nodes|)
  }

  /** Pair (a, b) comes strictly before (c, d) in lexicographic order. */
  predicate Before(p: (nat, nat), q: (nat, nat))
  {
    p.0 < q.0 || (p.0 == q.0 && p.1 < q.1)
  }

  /** Strictly increasing in lexicographic order, hence without repeats. */
  predicate Increasing(p: seq<(nat, nat)>)
  {
    forall k, m :: 0 <= k < m < |p| ==> Before(p[k], p[m])
  }

  /** Every pair (a, b) of p has a < i and a < b < n. */
  predicate Bounded(p: seq<(nat, nat)>, i: nat, n: nat)
  {
    forall k :: 0 <= k < |p| ==> p[k].0 < i && p[k].0 < p[k].1 < n
  }

  /** Every pair of p is a pair of linked nodes. */
  predicate AllLinked(nodes: seq<Dict>, p: seq<(nat, nat)>)
  {
    forall k :: 0 <= k < |p| ==> p[k].0 < |nodes| && p[k].1 < |nodes| && Linked(nodes, p[k].0, p[k].1)
  }

  /** Every linked pair (a, b) with a < i and a < b is in p. */
  predicate CoversBelow(nodes: seq<Dict>, p: seq<(nat, nat)>, i: nat)
  {
    forall a: nat, b: nat :: a < i && a < b < |nodes| && Linked(nodes, a, b) ==> (a, b) in p
  }

  lemma InConcat<T>(x: T, p: seq<T>, q: seq<T>)
    ensures x in p + q <==> x in p || x in q
  {
  }

  /** Two increasing runs, the first wholly before the second, make one increasing run. */
  lemma IncreasingAppend(p: seq<(nat, nat)>, q: seq<(nat, nat)>)
    requires Increasing(p) && Increasing(q)
    requires forall k, m :: 0 <= k < |p| && 0 <= m < |q| ==> Before(p[k], q[m])
    ensures Increasing(p + q)
  {
    var r := p + q;
    forall k, m | 0 <= k < m < |r|
      ensures Before(r[k], r[m])
    {
      if m < |p| {
        assert r[k] == p[k] && r[m] == p[m];
      } else if k < |p| {
        assert r[k] == p[k] && r[m] == q[m - |p|];
      } else {
        assert r[k] == q[k - |p|] && r[m] == q[m - |p|];
      }
    }
  }

  /** One more step of row i: the pair (i, j) is appended exactly when the two nodes are linked. */
  lemma PairsNext(nodes: seq<Dict>, i: nat, j: nat, pairs: seq<(nat, nat)>)
    requires i < j < |nodes|
    requires pairs == PairsBefore(nodes, i) + RowPairs(nodes, i, j)
    ensures Linked(nodes, i, j) ==> pairs + [(i, j)] == PairsBefore(nodes, i) + RowPairs(nodes, i, j + 1)
    ensures !Linked(nodes, i, j) ==> pairs == PairsBefore(nodes, i) + RowPairs(nodes, i, j + 1)
  {
    if Linked(nodes, i, j) {
      assert RowPairs(nodes, i, j + 1) == RowPairs(nodes, i, j) + [(i, j)];
    }
  }

  /** Row i up to j holds at most j - i - 1 pairs, each (i, c) with i < c < j. */
  lemma {:induction false} RowPairsBounded(nodes: seq<Dict>, i: nat, j: nat)
    requires i < |nodes| && j <= |nodes|
    ensures |RowPairs(nodes, i, j)| <= (if j <= i + 1 then 0 else j - i - 1)
    ensures forall k :: 0 <= k < |RowPairs(nodes, i, j)| ==>
              RowPairs(nodes, i, j)[k].0 == i && i < RowPairs(nodes, i, j)[k].1 < j
    decreases j
  {
    if j > i + 1 {
      RowPairsBounded(nodes, i, j - 1);
    }
  }

  /** Row i holds only partners linked to i. */
  lemma {:induction false} RowPairsLinked(nodes: seq<Dict>, i: nat, j: nat)
    requires i < |nodes| && j <= |nodes|
    ensures AllLinked(nodes, RowPairs(nodes, i, j))
    decreases j
  {
    if j > i + 1 {
      RowPairsLinked(nodes, i, j - 1);
    }
  }

  /** Row i lists its partners in increasing order. */
  lemma {:induction false} RowPairsOrdered(nodes: seq<Dict>, i: nat, j: nat)
    requires i < |nodes| && j <= |nodes|
    ensures Increasing(RowPairs(nodes, i, j))
    decreases j
  {
    if j > i + 1 {
      RowPairsOrdered(nodes, i, j - 1);
      RowPairsBounded(nodes, i, j - 1);
    }
  }

  /** Row i misses no partner c < j linked to i. */
  lemma {:induction false} RowPairsComplete(nodes: seq<Dict>, i: nat, j: nat)
    requires i < |nodes| && j <= |nodes|
    ensures forall c: nat :: i < c < j && Linked(nodes, i, c) ==> (i, c) in RowPairs(nodes, i, j)
    decreases j
  {
    if j > i + 1 {
      RowPairsComplete(nodes, i, j - 1);
    }
  }

  /** The rows before i hold only pairs (a, b) with a < i and a < b < n. */
  lemma {:induction false} PairsBeforeBounded(nodes: seq<Dict>, i: nat)
    requires i <= |nodes|
    ensures Bounded(PairsBefore(nodes, i), i, |nodes|)
  {
    if i > 0 {
      PairsBeforeBounded(nodes, i - 1);
      RowPairsBounded(nodes, i - 1, |nodes|);
    }
  }

  /** The rows before i hold only linked pairs. */
  lemma {:induction false} PairsBeforeLinked(nodes: seq<Dict>, i: nat)
    requires i <= |nodes|
    ensures AllLinked(nodes, PairsBefore(nodes, i))
  {
    if i > 0 {
      PairsBeforeLinked(nodes, i - 1);
      RowPairsLinked(nodes, i - 1, |nodes|);
    }
  }

  /** The rows before i list their pairs in strictly increasing lexicographic order, so each once. */
  lemma {:induction false} PairsBeforeOrdered(nodes: seq<Dict>, i: nat)
    requires i <= |nodes|
    ensures Increasing(PairsBefore(nodes, i))
  {
    if i > 0 {
      var prev, row := PairsBefore(nodes, i - 1), RowPairs(nodes, i - 1, |nodes|);
      PairsBeforeOrdered(nodes, i - 1);
      PairsBeforeBounded(nodes, i - 1);
      RowPairsBounded(nodes, i - 1, |nodes|);
      RowPairsOrdered(nodes, i - 1, |nodes|);
      forall k, m | 0 <= k < |prev| && 0 <= m < |row|
        ensures Before(prev[k], row[m])
      {
        assert prev[k].0 < i - 1 == row[m].0;
      }
      IncreasingAppend(prev, row);
    }
  }

  /** The rows before i miss no linked pair (a, b) with a < i and a < b. */
  lemma {:induction false} PairsBeforeComplete(nodes: seq<Dict>, i: nat)
    requires i <= |nodes|
    ensures CoversBelow(nodes, PairsBefore(nodes, i), i)
  {
    if i > 0 {
      var prev, row := PairsBefore(nodes, i - 1), RowPairs(nodes, i - 1, |nodes|);
      assert PairsBefore(nodes, i) == prev + row;
      forall a: nat, b: nat | a < i && a < b < |nodes| && Linked(nodes, a, b)
        ensures (a, b) in PairsBefore(nodes, i)
      {
        if a < i - 1 {
          PairsBeforeComplete(nodes, i - 1);
          InConcat((a, b), prev, row);
        } else {
          RowPairsComplete(nodes, i - 1, |nodes|);
          InConcat((a, b), prev, row);
        }
      }
    }
  }

  /** (i-1)(2n-i) + 2(n-i) = i(2n-i-1): one row more in the triangle count. */
  lemma TriangleStep(i: nat, n: nat)
    requires 0 < i <= n
    ensures (i - 1) * (2 * n - (i - 1) - 1) + 2 * (n - i) == i * (2 * n - i - 1)
  {
  }

  /** The rows before i hold at most i(2n-i-1)/2 pairs. */
  lemma {:induction false} PairsBeforeLength(nodes: seq<Dict>, i: nat)
    requires i <= |nodes|
    ensures 2 * |PairsBefore(nodes, i)| <= i * (2 * |nodes| - i - 1)
  {
    if i > 0 {
      PairsBeforeLength(nodes, i - 1);
      RowPairsBounded(nodes, i - 1, |nodes|);
      TriangleStep(i, |nodes|);
    }
  }

  /**
   * The nested loops visit each linked pair i < j exactly once, in
   * lexicographic order, so there are at most n(n-1)/2 of them.
   */
  lemma LinkedPairsShape(nodes: seq<Dict>)
    ensures 2 * |LinkedPairs(nodes)| <= |nodes| * (|nodes| - 1)
    ensures Bounded(LinkedPairs(nodes), |nodes|, |nodes|)
    ensures AllLinked(nodes, LinkedPairs(nodes))
    ensures Increasing(LinkedPairs(nodes))
    ensures CoversBelow(nodes, LinkedPairs(nodes), |nodes|)
  {
    PairsBeforeBounded(nodes, |nodes|);
    PairsBeforeLinked(nodes, |nodes|);
    PairsBeforeOrdered(nodes, |nodes|);
    PairsBeforeComplete(nodes, |nodes|);
    PairsBeforeLength(nodes, |nodes|);
  }

  /** The edge for linked pair (i, j), labelled with `kind`, the type of one shared pair. */
  function PairEdge(nodes: seq<Dict>, i: nat, j: nat, kind: Value): Value
    requires i < |nodes| && j < |nodes|
    requires "id" in nodes[i] && "id" in nodes[j]
  {
    JObj(map["source" := nodes[i]["id"], "target" := nodes[j]["id"], "label" := kind, "weight" := JNum(1.0)])
  }

  /** Edge e is the edge of pair (i, j): its label is the type of a pair the two nodes share. */
  predicate IsPairEdge(nodes: seq<Dict>, i: nat, j: nat, e: Value)
    requires i < |nodes| && j < |nodes|
  {
    "id" in nodes[i] && "id" in nodes[j]
    && e.JObj? && "label" in e.fields
    && e == PairEdge(nodes, i, j, e.fields["label"])
    && exists p :: p in SharedInsights(nodes[i], nodes[j]) && p.0 == e.fields["label"]
  }

  /** `edges` is what the loops build for `pairs`: one edge per pair, in order. */
  predicate EdgesFor(nodes: seq<Dict>, pairs: seq<(nat, nat)>, edges: seq<Value>)
  {
    |edges| == |pairs|
    && forall k :: 0 <= k < |pairs| ==>
         pairs[k].0 < |nodes| && pairs[k].1 < |nodes| && IsPairEdge(nodes, pairs[k].0, pairs[k].1, edges[k])
  }

  lemma EdgesForSnoc(nodes: seq<Dict>, pairs: seq<(nat, nat)>, edges: seq<Value>, i: nat, j: nat, e: Value)
    requires EdgesFor(nodes, pairs, edges)
    requires i < |nodes| && j < |nodes| && IsPairEdge(nodes, i, j, e)
    ensures EdgesFor(nodes, pairs + [(i, j)], edges + [e])
  {
    var p, q := pairs + [(i, j)], edges + [e];
    forall k | 0 <= k < |p|
      ensures p[k].0 < |nodes| && p[k].1 < |nodes| && IsPairEdge(nodes, p[k].0, p[k].1, q[k])
    {
      if k < |pairs| {
        assert p[k] == pairs[k] && q[k] == edges[k];
      }
    }
  }

  /** Every node's insight list can be read (the loops read each one when there are two nodes or more). */
  predicate Readable(nodes: seq<Dict>)
  {
    |nodes| < 2 || forall i :: 0 <= i < |nodes| ==> WellFormedInsights(nodes[i])
  }

  /** Every node in a linked pair has an id. */
  predicate IdsPresent(nodes: seq<Dict>)
  {
    forall i: nat, j: nat :: i < j < |nodes| && Linked(nodes, i, j) ==> "id" in nodes[i] && "id" in nodes[j]
  }

  /** The loops run to the end: every node's insights can be read, and every linked node has an id. */
  predicate Computable(nodes: seq<Dict>)
  {
    Readable(nodes) && IdsPresent(nodes)
  }

  /** The reads of the insight lists: false as soon as one of them would raise. */
  method CheckReadable(nodes: seq<Dict>) returns (ok: bool)
    ensures ok <==> Readable(nodes)
  {
    if |nodes| >= 2 {
      for i := 0 to |nodes|
        invariant forall m :: 0 <= m < i ==> WellFormedInsights(nodes[m])
      {
        if !WellFormedInsights(nodes[i]) {
          return false;
        }
      }
    }
    return true;
  }

  /** Once the edges of pairs covering every linked pair below row i exist, those nodes have ids. */
  lemma CoveredHaveIds(nodes: seq<Dict>, pairs: seq<(nat, nat)>, edges: seq<Value>, i: nat)
    requires EdgesFor(nodes, pairs, edges) && CoversBelow(nodes, pairs, i)
    ensures forall a: nat, b: nat :: a < i && a < b < |nodes| && Linked(nodes, a, b) ==>
              "id" in nodes[a] && "id" in nodes[b]
  {
    forall a: nat, b: nat | a < i && a < b < |nodes| && Linked(nodes, a, b)
      ensures "id" in nodes[a] && "id" in nodes[b]
    {
      var k :| 0 <= k < |pairs| && pairs[k] == (a, b);
      assert IsPairEdge(nodes, a, b, edges[k]);
    }
  }

  /**
   * One step of the inner loop: the edge of (i, j) is appended when the two
   * nodes share an insight pair; `ok` is false when one of them has no id.
   */
  method PairStep(nodes: seq<Dict>, i: nat, j: nat, edges0: seq<Value>, ghost pairs0: seq<(nat, nat)>)
    returns (edges: seq<Value>, ok: bool, ghost pairs: seq<(nat, nat)>)
    requires i < j < |nodes|
    requires pairs0 == PairsBefore(nodes, i) + RowPairs(nodes, i, j) && EdgesFor(nodes, pairs0, edges0)
    ensures ok <==> !Linked(nodes, i, j) || ("id" in nodes[i] && "id" in nodes[j])
    ensures ok ==> pairs == PairsBefore(nodes, i) + RowPairs(nodes, i, j + 1) && EdgesFor(nodes, pairs, edges)
  {
    edges, ok, pairs := edges0, true, pairs0;
    var shared := SharedInsights(nodes[i], nodes[j]);
    PairsNext(nodes, i, j, pairs0);
    if shared != {} {
      if "id" !in nodes[i] || "id" !in nodes[j] {
        return [], false, pairs;
      }
      var p :| p in shared;
      var e := PairEdge(nodes, i, j, p.0);
      assert IsPairEdge(nodes, i, j, e);
      EdgesForSnoc(nodes, pairs0, edges0, i, j, e);
      edges, pairs := edges0 + [e], pairs0 + [(i, j)];
    }
  }

  /** One row of the loops: the edges of the pairs (i, j) for i < j, appended to `edges`. */
  method RowEdges(nodes: seq<Dict>, i: nat, edges0: seq<Value>) returns (edges: seq<Value>, ok: bool)
    requires i < |nodes|
    requires EdgesFor(nodes, PairsBefore(nodes, i), edges0)
    ensures ok <==> forall b: nat :: i < b < |nodes| && Linked(nodes, i, b) ==> "id" in nodes[i] && "id" in nodes[b]
    ensures ok ==> EdgesFor(nodes, PairsBefore(nodes, i + 1), edges)
  {
    edges := edges0;
    ghost var pairs := PairsBefore(nodes, i);
    var n := |nodes|;
    for j := i + 1 to n
      invariant pairs == PairsBefore(nodes, i) + RowPairs(nodes, i, j)
      invariant EdgesFor(nodes, pairs, edges)
    {
      edges, ok, pairs := PairStep(nodes, i, j, edges, pairs);
      if !ok {
        MissingId(nodes, i, j);
        return [], false;
      }
    }
    ok := true;
    RowIds(nodes, i, pairs, edges);
  }

  /** A linked partner without an id, or i without one, is a counterexample to row i's ids. */
  lemma MissingId(nodes: seq<Dict>, i: nat, j: nat)
    requires i < j < |nodes| && Linked(nodes, i, j) && !("id" in nodes[i] && "id" in nodes[j])
    ensures !forall b: nat :: i < b < |nodes| && Linked(nodes, i, b) ==> "id" in nodes[i] && "id" in nodes[b]
  {
  }

  /** After the last column of row i, the edges cover row i too, and every partner of i has an id. */
  lemma RowIds(nodes: seq<Dict>, i: nat, pairs: seq<(nat, nat)>, edges: seq<Value>)
    requires i < |nodes|
    requires pairs == PairsBefore(nodes, i) + RowPairs(nodes, i, |nodes|) && EdgesFor(nodes, pairs, edges)
    ensures EdgesFor(nodes, PairsBefore(nodes, i + 1), edges)
    ensures forall b: nat :: i < b < |nodes| && Linked(nodes, i, b) ==> "id" in nodes[i] && "id" in nodes[b]
  {
    assert pairs == PairsBefore(nodes, i + 1);
    RowPairsComplete(nodes, i, |nodes|);
    forall b: nat | i < b < |nodes| && Linked(nodes, i, b)
      ensures "id" in nodes[i] && "id" in nodes[b]
    {
      InConcat((i, b), PairsBefore(nodes, i), RowPairs(nodes, i, |nodes|));
      var k :| 0 <= k < |pairs| && pairs[k] == (i, b);
      assert IsPairEdge(nodes, i, b, edges[k]);
    }
  }

  /**
   * The edge loops of `build_graph`. `ok` is false when a step raises: reading
   * a malformed insight list, or the id of a linked node without one.
   */
  method PairEdges(nodes: seq<Dict>) returns (edges: seq<Value>, ok: bool)
    ensures ok <==> Computable(nodes)
    ensures ok ==> EdgesFor(nodes, LinkedPairs(nodes), edges)
  {
    edges := [];
    ok := CheckReadable(nodes);
    if !ok {
      return;
    }
    for i := 0 to |nodes|
      invariant EdgesFor(nodes, PairsBefore(nodes, i), edges)
    {
      edges, ok := RowEdges(nodes, i, edges);
      if !ok {
        return [], false;
      }
    }
    PairsBeforeComplete(nodes, |nodes|);
    CoveredHaveIds(nodes, LinkedPairs(nodes), edges, |nodes|);
  }

  const NodesDesc: string := "List of every atom."
  const EdgesDesc: string := "Links between atoms sharing high-weight insights."
  const ClustersDesc: string := "Auto-groups per insight label (≥ 2 atoms)."

  /** The graph document: the atoms unchanged as nodes, the edges, and the fixed fields. */
  function PairGraphDoc(nodes: seq<Dict>, edges: seq<Value>): Dict
  {
    map["nodes" := JArr(seq(|nodes|, i requires 0 <= i < |nodes| => JObj(nodes[i]))),
        "edges" := JArr(edges), "clusters" := JObj(map[]), "facets" := JArr([]), "themes" := JArr([]),
        "nodes_desc" := JStr(NodesDesc), "edges_desc" := JStr(EdgesDesc), "clusters_desc" := JStr(ClustersDesc)]
  }

  function PairGraphFile(slug: string, filename: string): Key
  {
    Key(Project(slug), Graphs, Renamed(filename, ".json"))
  }

  /**
   * `build_graph` of the graph router: 400 without a project, the cached graph
   * when one exists, 500 when the loops raise, and otherwise the graph over
   * the atoms, which is written to the cache.
   */
  method BuildPairGraph(disk: Disk, atoms: seq<Dict>, filename: string, slug: string,
                        parse: Parser, dumps: Serializer)
    returns (resp: Response, ghost edges: seq<Value>)
    modifies disk
    ensures slug == "" ==> resp == HttpError(400) && disk.files == old(disk.files)
    ensures slug != "" && PairGraphFile(slug, filename) in old(disk.files) ==>
              disk.files == old(disk.files)
              && resp == (match parse(old(disk.files)[PairGraphFile(slug, filename)])
                          case None => HttpError(500)
                          case Some(g) => Ok(g))
    ensures slug != "" && PairGraphFile(slug, filename) !in old(disk.files) && !Computable(atoms) ==>
              resp == HttpError(500) && disk.files == old(disk.files)
    ensures slug != "" && PairGraphFile(slug, filename) !in old(disk.files) && Computable(atoms) ==>
              EdgesFor(atoms, LinkedPairs(atoms), edges)
              && resp == Ok(JObj(PairGraphDoc(atoms, edges)))
              && disk.files == old(disk.files)[PairGraphFile(slug, filename) := dumps(JObj(PairGraphDoc(atoms, edges)))]
  {
    edges := [];
    if slug == "" {
      return HttpError(400), edges;
    }
    var key := PairGraphFile(slug, filename);
    if key in disk.files {
      var cached := parse(disk.files[key]);
      if cached.None? {
        return HttpError(500), edges;
      }
      return Ok(cached.value), edges;
    }
    var built, ok := PairEdges(atoms);
    if !ok {
      return HttpError(500), edges;
    }
    edges := built;
    var graph := PairGraphDoc(atoms, built);
    disk.files := disk.files[key := dumps(JObj(graph))];
    resp := Ok(JObj(graph));
  }

  // ---------------------------------------------------------------------------
  // generate_initial_themes and enhance_graph: one call each, `[]` on any failure
  // ---------------------------------------------------------------------------

  /** The value of a single model call, or `[]` when the call or the parse raises. */
  function ValueOrEmpty(o: Outcome): Value
  {
    if o.Parsed? then o.value else JArr([])
  }

  /**
   * `generate_initial_themes`: one call with the atoms in the prompt; the reply
   * is stripped of a leading "```json" and a trailing "```" only.
   */
  function InitialThemes(atoms: seq<Dict>, oracle: Oracle, parse: Parser, dumps: Serializer, call: nat): (r: Value)
    ensures var reply := oracle(call, dumps(JArr(seq(|atoms|, i requires 0 <= i < |atoms| => JObj(atoms[i])))));
      && (reply.CallFailed? || parse(StripJsonFence(reply.text)).None? ==> r == JArr([]))
      && (r != JArr([]) ==> reply.Answer? && parse(StripJsonFence(reply.text)) == Some(r))
      && (reply.Answer? && parse(StripJsonFence(reply.text)).Some? ==> r == parse(StripJsonFence(reply.text)).value)
  {
    var payload := dumps(JArr(seq(|atoms|, i requires 0 <= i < |atoms| => JObj(atoms[i]))));
    ValueOrEmpty(Decode(oracle(call, payload), parse, StripJsonFence))
  }

  /**
   * `enhance_graph`: no call at all (and `[]`) when "nodes" is absent or
   * falsy; otherwise one call whose parsed reply is returned, `[]` on failure.
   */
  function EnhanceGraph(request: Dict, oracle: Oracle, parse: Parser, dumps: Serializer, call: nat)
    : (r: (Value, nat))
    ensures !Truthy(Lookup(request, "nodes", JArr([]))) ==> r == (JArr([]), 0)
    ensures Truthy(Lookup(request, "nodes", JArr([]))) ==> r.1 == 1
    ensures r.0 != JArr([]) ==>
              var reply := oracle(call, dumps(request["nodes"]));
              reply.Answer? && parse(StripJsonFence(reply.text)) == Some(r.0)
    ensures Truthy(Lookup(request, "nodes", JArr([]))) ==>
              var reply := oracle(call, dumps(Lookup(request, "nodes", JArr([]))));
              reply.Answer? && parse(StripJsonFence(reply.text)).Some? ==> r.0 == parse(StripJsonFence(reply.text)).value
  {
    var nodes := Lookup(request, "nodes", JArr([]));
    if !Truthy(nodes) then (JArr([]), 0)
    else (ValueOrEmpty(Decode(oracle(call, dumps(nodes)), parse, StripJsonFence)), 1)
  }
}
