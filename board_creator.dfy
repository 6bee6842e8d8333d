/**
 * The collaborative board: the journey map, theme clusters with quote
 * stickies, the quote bank, opportunity cards and open questions, each placed
 * by fixed layout arithmetic and merged into one element dictionary.
 *
 * Inputs are JSON dictionaries as the pipeline hands them over. Python's
 * `hash()` (theme colours) and `str()` (pain-point titles) are parameters.
 */
module BoardCreator {
  import opened Text
  import opened Json
  import opened Seqs

  // ---------------------------------------------------------------------------
  // Element ids: the dictionary keys, and their rendering as strings
  // ---------------------------------------------------------------------------

  datatype ElementId =
    | JourneyStepId(i: nat)
    | ThemeClusterId(i: nat)
    | ThemeQuoteId(i: nat, j: nat)
    | QuoteId(i: nat)
    | OpportunityId(i: nat)
    | QuestionId(i: nat)

  /** The key the source builds with an f-string. */
  function IdText(id: ElementId): string
  {
    match id
    case JourneyStepId(i) => "journey_step_" + NatStr(i)
    case ThemeClusterId(i) => "theme_cluster_" + NatStr(i)
    case ThemeQuoteId(i, j) => "theme_quote_" + NatStr(i) + "_" + NatStr(j)
    case QuoteId(i) => "quote_" + NatStr(i)
    case OpportunityId(i) => "opportunity_" + NatStr(i)
    case QuestionId(i) => "question_" + NatStr(i)
  }

  function Family(id: ElementId): nat
  {
    match id
    case JourneyStepId(_) => 0
    case ThemeClusterId(_) => 1
    case ThemeQuoteId(_, _) => 2
    case QuoteId(_) => 3
    case OpportunityId(_) => 4
    case QuestionId(_) => 5
  }

  /** Reads the family back from the first and the distinguishing character of a key. */
  function FamilyOfText(s: string): nat
    requires |s| >= 7
  {
    if s[0] == 'j' then 0
    else if s[0] == 't' then (if s[6] == 'c' then 1 else 2)
    else if s[0] == 'q' then (if s[2] == 'o' then 3 else 5)
    else 4
  }

  lemma FamilyOfId(id: ElementId)
    ensures |IdText(id)| >= 7 && FamilyOfText(IdText(id)) == Family(id)
  {
    match id
    case JourneyStepId(i) =>
    case ThemeClusterId(i) =>
    case ThemeQuoteId(i, j) =>
    case QuoteId(i) =>
    case OpportunityId(i) =>
    case QuestionId(i) =>
  }

  predicate AllDigits(s: string)
  {
    forall k :: 0 <= k < |s| ==> '0' <= s[k] <= '9'
  }

  /** `u_v` splits back at the underscore when `u` is all digits. */
  lemma SplitAtUnderscore(u: string, v: string, u': string, v': string)
    requires AllDigits(u) && AllDigits(u')
    requires u + "_" + v == u' + "_" + v'
    ensures u == u' && v == v'
  {
    var s := u + "_" + v;
    assert s[|u|] == '_' && s[|u'|] == '_';
    assert forall k :: 0 <= k < |u| ==> s[k] == u[k];
    assert forall k :: 0 <= k < |u'| ==> s[k] == u'[k];
    assert u == s[..|u|] == u';
    assert v == s[|u| + 1..] == v';
  }

  /** A fixed prefix followed by a number determines the number. */
  lemma NumberedInjective(p: string, i: nat, k: nat)
    requires p + NatStr(i) == p + NatStr(k)
    ensures i == k
  {
    assert NatStr(i) == (p + NatStr(i))[|p|..];
    NatStrInjective(i, k);
  }

  /** A fixed prefix followed by `u_v`, `u` all digits, determines both parts. */
  lemma PairInjective(p: string, u: string, v: string, u': string, v': string)
    requires AllDigits(u) && AllDigits(u')
    requires p + u + "_" + v == p + u' + "_" + v'
    ensures u == u' && v == v'
  {
    var s := p + u + "_" + v;
    assert u + "_" + v == s[|p|..];
    assert u' + "_" + v' == s[|p|..];
    SplitAtUnderscore(u, v, u', v');
  }

  /**
   * The six key families have distinct prefixes and numbers print
   * injectively, so different ids never collide as dictionary keys.
   */
  lemma IdTextInjective(a: ElementId, b: ElementId)
    requires IdText(a) == IdText(b)
    ensures a == b
  {
    FamilyOfId(a);
    FamilyOfId(b);
    assert Family(a) == Family(b);
    match a
    case JourneyStepId(i) =>
      assert b.JourneyStepId?;
      NumberedInjective("journey_step_", i, b.i);
    case ThemeClusterId(i) =>
      assert b.ThemeClusterId?;
      NumberedInjective("theme_cluster_", i, b.i);
    case ThemeQuoteId(i, j) =>
      assert b.ThemeQuoteId?;
      PairInjective("theme_quote_", NatStr(i), NatStr(j), NatStr(b.i), NatStr(b.j));
      NatStrInjective(i, b.i);
      NatStrInjective(j, b.j);
    case QuoteId(i) =>
      assert b.QuoteId?;
      NumberedInjective("quote_", i, b.i);
    case OpportunityId(i) =>
      assert b.OpportunityId?;
      NumberedInjective("opportunity_", i, b.i);
    case QuestionId(i) =>
      assert b.QuestionId?;
      NumberedInjective("question_", i, b.i);
  }

  // ---------------------------------------------------------------------------
  // Elements and layout
  // ---------------------------------------------------------------------------

  datatype ElementType = ShapeElement | StickyElement | CardElement

  /** The `metadata` of each kind of element; quote stickies inside a cluster have none. */
  datatype Meta =
    | JourneyMeta(pain: Value, emotion: Value, quotes: Value, participants: Value)
    | ClusterMeta(themeName: Value, quotes: Value, participants: Value, painPoints: Value, opportunities: Value)
    | QuoteMeta(atomId: Value, speaker: Value, sentiment: Value, tags: Value)
    | OpportunityMeta(description: Value, priority: Value, effort: Value, linkedPainPoints: Value)
    | QuestionMeta(priority: Value)
    | NoMeta

  /** A board element: its box, fill colour, label text and metadata. */
  datatype Element = Element(kind: ElementType, x: int, y: int, width: nat, height: nat,
                             color: string, text: Value, meta: Meta)

  /** Two boxes share no point. */
  predicate Apart(a: Element, b: Element)
  {
    a.x + a.width <= b.x || b.x + b.width <= a.x || a.y + a.height <= b.y || b.y + b.height <= a.y
  }

  /** `b` lies within `a`. */
  predicate Inside(b: Element, a: Element)
  {
    a.x <= b.x && b.x + b.width <= a.x + a.width && a.y <= b.y && b.y + b.height <= a.y + a.height
  }

  /** `s[:n] + "..."` on a string label; any other value is passed through. */
  function Shorten(v: Value, n: nat): Value
  {
    match v
    case JStr(s) => JStr(Ellipsize(s, n))
    case _ => v
  }

  /** A step given as anything but an object reads as an empty one. */
  function AsDict(v: Value): Dict
  {
    if v.JObj? then v.fields else map[]
  }

  // Indexed placement --------------------------------------------------------------

  /** The four sections whose elements are numbered by one index. */
  datatype Section = JourneySection | QuoteSection | OpportunitySection | QuestionSection

  function SectionId(sec: Section, i: nat): (id: ElementId)
    ensures id.i == i
  {
    match sec
    case JourneySection => JourneyStepId(i)
    case QuoteSection => QuoteId(i)
    case OpportunitySection => OpportunityId(i)
    case QuestionSection => QuestionId(i)
  }

  predicate InSection(id: ElementId, sec: Section)
  {
    match sec
    case JourneySection => id.JourneyStepId?
    case QuoteSection => id.QuoteId?
    case OpportunitySection => id.OpportunityId?
    case QuestionSection => id.QuestionId?
  }

  /** `for i, x in enumerate(xs): elements[f"<section>_{i}"] = place(i, x)`. */
  function Indexed<T>(sec: Section, xs: seq<T>, place: (nat, T) -> Element): map<ElementId, Element>
  {
    if xs == [] then map[]
    else
      var n := |xs| - 1;
      Indexed(sec, xs[..n], place)[SectionId(sec, n) := place(n, xs[n])]
  }

  /** A section holds exactly one element per item, keyed by the item's position. */
  lemma {:induction false} IndexedKeys<T>(sec: Section, xs: seq<T>, place: (nat, T) -> Element)
    ensures |Indexed(sec, xs, place)| == |xs|
    ensures forall id :: id in Indexed(sec, xs, place) <==> InSection(id, sec) && id.i < |xs|
  {
    if xs != [] {
      var n := |xs| - 1;
      IndexedKeys(sec, xs[..n], place);
      assert SectionId(sec, n) !in Indexed(sec, xs[..n], place);
    }
  }

  /** Item k is placed under its own key. */
  lemma {:induction false} IndexedAt<T>(sec: Section, xs: seq<T>, place: (nat, T) -> Element, k: nat)
    requires k < |xs|
    ensures SectionId(sec, k) in Indexed(sec, xs, place)
    ensures Indexed(sec, xs, place)[SectionId(sec, k)] == place(k, xs[k])
  {
    var n := |xs| - 1;
    if k < n {
      IndexedAt(sec, xs[..n], place, k);
      assert SectionId(sec, n) != SectionId(sec, k);
    }
  }

  /**
   * The loop shared by the journey map, the quote bank, the opportunity cards
   * and the open questions.
   */
  method PlaceAll<T>(sec: Section, xs: seq<T>, place: (nat, T) -> Element) returns (elements: map<ElementId, Element>)
    ensures elements == Indexed(sec, xs, place)
  {
    elements := map[];
    for i := 0 to |xs|
      invariant elements == Indexed(sec, xs[..i], place)
    {
      assert xs[..i + 1][..i] == xs[..i];
      elements := elements[SectionId(sec, i) := place(i, xs[i])];
    }
    assert xs[..|xs|] == xs;
  }

  // Journey map ----------------------------------------------------------------

  /** The pain-level colour: red, yellow and green, yellow's colour otherwise. */
  function PainColor(pain: Value): (c: string)
    ensures c in {"#ff4444", "#ffaa44", "#44ff44"}
    ensures pain == JStr("red") <==> c == "#ff4444"
    ensures pain == JStr("green") <==> c == "#44ff44"
  {
    if pain == JStr("red") then "#ff4444"
    else if pain == JStr("green") then "#44ff44"
    else "#ffaa44"
  }

  function JourneyElement(i: nat, step: Dict): Element
  {
    Element(ShapeElement, 150, 150 + 80 * i, 350, 70,
      PainColor(Lookup(step, "pain", JStr("yellow"))),
      Lookup(step, "step", JStr("Step " + NatStr(i + 1))),
      JourneyMeta(Lookup(step, "pain", JNull), Lookup(step, "emotion", JNull),
                  Lookup(step, "atoms", JArr([])), Lookup(step, "participants", JArr([]))))
  }

  /** Step i sits at (150, 150 + 80i); consecutive steps do not overlap. */
  lemma JourneyLayout(i: nat, j: nat, s: Dict, t: Dict)
    ensures JourneyElement(i, s).x == 150 && JourneyElement(i, s).y == 150 + 80 * i
    ensures "step" !in s ==> JourneyElement(i, s).text == JStr("Step " + NatStr(i + 1))
    ensures i != j ==> Apart(JourneyElement(i, s), JourneyElement(j, t))
  {
  }

  /** The steps under `journey_data['journey']`, none when that value is falsy. */
  function JourneySteps(journeyData: Dict): seq<Dict>
  {
    var journey := Lookup(journeyData, "journey", JNull);
    if Truthy(journey) then Map(Items(journey), AsDict) else []
  }

  /** `_create_journey_map`. */
  method CreateJourneyMap(journeyData: Dict) returns (elements: map<ElementId, Element>)
    ensures elements == Indexed(JourneySection, JourneySteps(journeyData), JourneyElement)
  {
    elements := map[];
    var journey := Lookup(journeyData, "journey", JNull);
    if !Truthy(journey) {
      return;
    }
    elements := PlaceAll(JourneySection, Map(Items(journey), AsDict), JourneyElement);
  }

  // Theme clusters ---------------------------------------------------------------

  const Palette: seq<string> := ["#FFB6C1", "#87CEEB", "#98FB98", "#F0E68C", "#DDA0DD", "#F4A460", "#E6E6FA", "#D3D3D3"]

  /** `_get_theme_color`: Python's `%` by a positive length never leaves the palette. */
  function ThemeColor(name: Value, hash: Value -> int): (c: string)
    ensures c in Palette
  {
    Palette[hash(name) % |Palette|]
  }

  /** Cluster i's column is i mod 3 and its row i div 3. */
  function ClusterX(i: nat): int { 600 + 220 * (i % 3) }
  function ClusterY(i: nat): int { 150 + 170 * (i / 3) }

  function ClusterElement(i: nat, theme: Dict, hash: Value -> int): Element
  {
    Element(StickyElement, ClusterX(i), ClusterY(i), 200, 150,
      ThemeColor(Lookup(theme, "name", JStr("")), hash),
      Lookup(theme, "name", JStr("Theme " + NatStr(i + 1))),
      ClusterMeta(Lookup(theme, "name", JNull), Lookup(theme, "atoms", JArr([])),
                  Lookup(theme, "participants", JArr([])), Lookup(theme, "pain_points", JArr([])),
                  Lookup(theme, "opportunities", JArr([]))))
  }

  /** The quotes a cluster shows: the first five of the theme's atoms. */
  function ThemeQuotes(theme: Dict): (q: seq<Value>)
    ensures |q| <= 5
  {
    FirstN(Items(Lookup(theme, "atoms", JArr([]))), 5)
  }

  function QuoteSticky(i: nat, j: nat, quote: Value): Element
  {
    Element(StickyElement, ClusterX(i) + 10, ClusterY(i) + 40 + 20 * j, 180, 15, "#ffffff", Shorten(quote, 50), NoMeta)
  }

  /** Clusters fill a three-column grid without overlapping. */
  lemma ClustersApart(i: nat, k: nat, s: Dict, t: Dict, hash: Value -> int)
    requires i != k
    ensures Apart(ClusterElement(i, s, hash), ClusterElement(k, t, hash))
  {
    if i / 3 == k / 3 {
      assert i % 3 != k % 3;
    }
  }

  /**
   * A cluster's quote stickies lie inside it and do not overlap one another;
   * a quote longer than 50 characters shows its first 50 and "...".
   */
  lemma QuoteStickiesInCluster(i: nat, j: nat, l: nat, q: Value, r: Value, theme: Dict, hash: Value -> int)
    requires j < 5 && l < 5
    ensures Inside(QuoteSticky(i, j, q), ClusterElement(i, theme, hash))
    ensures j != l ==> Apart(QuoteSticky(i, j, q), QuoteSticky(i, l, r))
    ensures q.JStr? && |q.s| > 50 ==> QuoteSticky(i, j, q).text == JStr(q.s[..50] + "...")
  {
  }

  /** Merging maps with disjoint keys adds their sizes. */
  lemma MergeSize(a: map<ElementId, Element>, b: map<ElementId, Element>)
    requires forall id :: id in a ==> id !in b
    ensures |a + b| == |a| + |b|
  {
    assert (a + b).Keys == a.Keys + b.Keys;
    assert a.Keys * b.Keys == {};
  }

  /** One theme's elements: its cluster box and its quote stickies in order. */
  datatype Cluster = Cluster(box: Element, stickies: seq<Element>)

  /** The stickies of cluster i: sticky j under `theme_quote_i_j`. */
  function StickyMap(i: nat, stickies: seq<Element>): map<ElementId, Element>
  {
    if stickies == [] then map[]
    else
      var j := |stickies| - 1;
      StickyMap(i, stickies[..j])[ThemeQuoteId(i, j) := stickies[j]]
  }

  /** Cluster i under `theme_cluster_i`, followed by its stickies, for every cluster in order. */
  function ClusterMap(clusters: seq<Cluster>): map<ElementId, Element>
  {
    if clusters == [] then map[]
    else
      var n := |clusters| - 1;
      ClusterMap(clusters[..n])[ThemeClusterId(n) := clusters[n].box] + StickyMap(n, clusters[n].stickies)
  }

  /** Cluster i holds one sticky per quote, keyed by position. */
  lemma {:induction false} StickyMapKeys(i: nat, stickies: seq<Element>)
    ensures |StickyMap(i, stickies)| == |stickies|
    ensures forall id :: id in StickyMap(i, stickies) <==> id.ThemeQuoteId? && id.i == i && id.j < |stickies|
  {
    if stickies != [] {
      var j := |stickies| - 1;
      StickyMapKeys(i, stickies[..j]);
      assert ThemeQuoteId(i, j) !in StickyMap(i, stickies[..j]);
    }
  }

  lemma {:induction false} StickyMapValues(i: nat, stickies: seq<Element>)
    ensures forall j :: 0 <= j < |stickies| ==>
      ThemeQuoteId(i, j) in StickyMap(i, stickies) && StickyMap(i, stickies)[ThemeQuoteId(i, j)] == stickies[j]
  {
    if stickies != [] {
      StickyMapValues(i, stickies[..|stickies| - 1]);
    }
  }

  /** The number of stickies over all clusters. */
  function StickyCount(clusters: seq<Cluster>): nat
  {
    if clusters == [] then 0 else StickyCount(clusters[..|clusters| - 1]) + |clusters[|clusters| - 1].stickies|
  }

  /** The keys of the cluster map: one per cluster and one per sticky of each. */
  predicate ClusterKey(clusters: seq<Cluster>, id: ElementId)
  {
    (id.ThemeClusterId? && id.i < |clusters|)
    || (id.ThemeQuoteId? && id.i < |clusters| && id.j < |clusters[id.i].stickies|)
  }

  lemma {:induction false} ClusterMapKeys(clusters: seq<Cluster>)
    ensures |ClusterMap(clusters)| == |clusters| + StickyCount(clusters)
    ensures forall id :: id in ClusterMap(clusters) <==> ClusterKey(clusters, id)
  {
    if clusters != [] {
      var n := |clusters| - 1;
      var prev := ClusterMap(clusters[..n]);
      var last := clusters[n];
      ClusterMapKeys(clusters[..n]);
      StickyMapKeys(n, last.stickies);
      assert ThemeClusterId(n) !in prev;
      MergeSize(prev[ThemeClusterId(n) := last.box], StickyMap(n, last.stickies));
    }
  }

  lemma {:induction false} ClusterMapBoxes(clusters: seq<Cluster>)
    ensures forall k :: 0 <= k < |clusters| ==>
      ThemeClusterId(k) in ClusterMap(clusters) && ClusterMap(clusters)[ThemeClusterId(k)] == clusters[k].box
  {
    if clusters != [] {
      var n := |clusters| - 1;
      var prev := ClusterMap(clusters[..n]);
      ClusterMapBoxes(clusters[..n]);
      StickyMapKeys(n, clusters[n].stickies);
      forall k | 0 <= k < n
        ensures ThemeClusterId(k) in prev && prev[ThemeClusterId(k)] == clusters[k].box
      {
        assert clusters[..n][k] == clusters[k];
      }
    }
  }

  lemma {:induction false} ClusterMapSticky(clusters: seq<Cluster>, k: nat, j: nat)
    requires k < |clusters| && j < |clusters[k].stickies|
    ensures ThemeQuoteId(k, j) in ClusterMap(clusters)
    ensures ClusterMap(clusters)[ThemeQuoteId(k, j)] == clusters[k].stickies[j]
  {
    var n := |clusters| - 1;
    StickyMapKeys(n, clusters[n].stickies);
    if k < n {
      ClusterMapSticky(clusters[..n], k, j);
      assert clusters[..n][k] == clusters[k];
    } else {
      StickyMapValues(n, clusters[n].stickies);
    }
  }

  /** The stickies of cluster i showing the quotes. */
  function QuoteStickyList(i: nat, quotes: seq<Value>): (r: seq<Element>)
    ensures |r| == |quotes|
  {
    seq(|quotes|, j requires 0 <= j < |quotes| => QuoteSticky(i, j, quotes[j]))
  }

  /** Theme i's cluster: its box and a sticky for each of its first five quotes. */
  function ThemeCluster(i: nat, theme: Dict, hash: Value -> int): (c: Cluster)
    ensures |c.stickies| == |ThemeQuotes(theme)|
  {
    Cluster(ClusterElement(i, theme, hash), QuoteStickyList(i, ThemeQuotes(theme)))
  }

  /** The clusters of the themes, numbered by position. */
  function ThemeClusters(themes: seq<Dict>, hash: Value -> int): (r: seq<Cluster>)
    ensures |r| == |themes|
  {
    if themes == [] then []
    else ThemeClusters(themes[..|themes| - 1], hash) + [ThemeCluster(|themes| - 1, themes[|themes| - 1], hash)]
  }

  lemma {:induction false} ThemeClustersAt(themes: seq<Dict>, hash: Value -> int, k: nat)
    requires k < |themes|
    ensures ThemeClusters(themes, hash)[k] == ThemeCluster(k, themes[k], hash)
  {
    if k < |themes| - 1 {
      ThemeClustersAt(themes[..|themes| - 1], hash, k);
    }
  }

  /** The number of quote stickies the themes get. */
  function QuoteCount(themes: seq<Dict>): nat
  {
    if themes == [] then 0 else QuoteCount(themes[..|themes| - 1]) + |ThemeQuotes(themes[|themes| - 1])|
  }

  lemma {:induction false} QuoteCountStickies(themes: seq<Dict>, hash: Value -> int)
    ensures StickyCount(ThemeClusters(themes, hash)) == QuoteCount(themes)
  {
    if themes != [] {
      var n := |themes| - 1;
      QuoteCountStickies(themes[..n], hash);
      assert ThemeClusters(themes, hash)[..n] == ThemeClusters(themes[..n], hash);
    }
  }

  /**
   * `_create_theme_clusters` places exactly one cluster per theme and one
   * sticky for each of the theme's first five quotes, so the element count is
   * the number of themes plus the number of stickies.
   */
  lemma ThemeClusterKeys(themes: seq<Dict>, hash: Value -> int)
    ensures |ClusterMap(ThemeClusters(themes, hash))| == |themes| + QuoteCount(themes)
    ensures forall id :: id in ClusterMap(ThemeClusters(themes, hash)) <==>
      ((id.ThemeClusterId? && id.i < |themes|)
       || (id.ThemeQuoteId? && id.i < |themes| && id.j < |ThemeQuotes(themes[id.i])|))
  {
    var clusters := ThemeClusters(themes, hash);
    ClusterMapKeys(clusters);
    QuoteCountStickies(themes, hash);
    forall id: ElementId | id.ThemeQuoteId? && id.i < |themes|
      ensures |clusters[id.i].stickies| == |ThemeQuotes(themes[id.i])|
    {
      ThemeClustersAt(themes, hash, id.i);
    }
  }

  /** Each cluster carries the element its theme produces. */
  lemma ThemeClusterBox(themes: seq<Dict>, hash: Value -> int, k: nat)
    requires k < |themes|
    ensures ThemeClusterId(k) in ClusterMap(ThemeClusters(themes, hash))
    ensures ClusterMap(ThemeClusters(themes, hash))[ThemeClusterId(k)] == ClusterElement(k, themes[k], hash)
  {
    ClusterMapBoxes(ThemeClusters(themes, hash));
    ThemeClustersAt(themes, hash, k);
  }

  /** Each sticky carries the element its theme's quote produces. */
  lemma ThemeClusterSticky(themes: seq<Dict>, hash: Value -> int, k: nat, j: nat)
    requires k < |themes| && j < |ThemeQuotes(themes[k])|
    ensures ThemeQuoteId(k, j) in ClusterMap(ThemeClusters(themes, hash))
    ensures ClusterMap(ThemeClusters(themes, hash))[ThemeQuoteId(k, j)] == QuoteSticky(k, j, ThemeQuotes(themes[k])[j])
  {
    ThemeClustersAt(themes, hash, k);
    ClusterMapSticky(ThemeClusters(themes, hash), k, j);
  }

  /** The inner loop of `_create_theme_clusters`: the quote stickies of cluster i. */
  method QuoteStickies(i: nat, quotes: seq<Value>) returns (stickies: map<ElementId, Element>)
    ensures stickies == StickyMap(i, QuoteStickyList(i, quotes))
  {
    ghost var list := QuoteStickyList(i, quotes);
    stickies := map[];
    for j := 0 to |quotes|
      invariant stickies == StickyMap(i, list[..j])
    {
      assert list[..j + 1][..j] == list[..j];
      stickies := stickies[ThemeQuoteId(i, j) := QuoteSticky(i, j, quotes[j])];
    }
    assert list[..|quotes|] == list;
  }

  /** `_create_theme_clusters`. */
  method CreateThemeClusters(themes: seq<Dict>, hash: Value -> int) returns (elements: map<ElementId, Element>)
    ensures elements == ClusterMap(ThemeClusters(themes, hash))
  {
    elements := map[];
    for i := 0 to |themes|
      invariant elements == ClusterMap(ThemeClusters(themes[..i], hash))
    {
      assert themes[..i + 1][..i] == themes[..i];
      elements := elements[ThemeClusterId(i) := ClusterElement(i, themes[i], hash)];
      var stickies := QuoteStickies(i, ThemeQuotes(themes[i]));
      elements := elements + stickies;
    }
    assert themes[..|themes|] == themes;
  }

  // Quote bank ---------------------------------------------------------------------

  function QuoteBankElement(i: nat, atom: Dict): Element
  {
    Element(StickyElement, 1500, 150 + 60 * i, 280, 50, "#f0f0f0",
      Shorten(Lookup(atom, "text", JStr("")), 100),
      QuoteMeta(Lookup(atom, "id", JNull), Lookup(atom, "speaker", JNull),
                Lookup(atom, "sentiment", JNull), Lookup(atom, "tags", JArr([]))))
  }

  /**
   * Quote i sits at (1500, 150 + 60i) and quotes do not overlap; text longer
   * than 100 characters shows its first 100 and "...".
   */
  lemma QuoteBankLayout(i: nat, k: nat, a: Dict, b: Dict)
    ensures QuoteBankElement(i, a).x == 1500 && QuoteBankElement(i, a).y == 150 + 60 * i
    ensures i != k ==> Apart(QuoteBankElement(i, a), QuoteBankElement(k, b))
    ensures "text" in a && a["text"].JStr? && |a["text"].s| > 100 ==>
      QuoteBankElement(i, a).text == JStr(a["text"].s[..100] + "...")
  {
  }

  // Opportunities ------------------------------------------------------------------

  datatype Opportunity = Opportunity(title: Value, description: Value, priority: Value, effort: Value, linkedPainPoints: Value)

  predicate IsOpportunity(insight: Dict) { Lookup(insight, "type", JNull) == JStr("opportunity") }

  function FromInsight(insight: Dict): Opportunity
  {
    Opportunity(Lookup(insight, "title", JStr("Untitled Opportunity")), Lookup(insight, "description", JStr("")),
      Lookup(insight, "priority", JStr("medium")), Lookup(insight, "effort", JStr("medium")),
      Lookup(insight, "linked_pain_points", JArr([])))
  }

  /** A theme's pain points (the list under `pain_points`). */
  function PainsOf(theme: Dict): seq<Value>
  {
    Items(Lookup(theme, "pain_points", JArr([])))
  }

  /** The card generated for a pain point; `show` is Python's `str()`. */
  function PainCard(pain: Value, show: Value -> string): Opportunity
  {
    Opportunity(JStr("Address: " + show(pain)), JStr("Design intervention for " + show(pain)),
      JStr("high"), JStr("medium"), JArr([pain]))
  }

  function PainCardsOf(pains: seq<Value>, show: Value -> string): (r: seq<Opportunity>)
    ensures |r| == |pains|
  {
    if pains == [] then [] else PainCardsOf(pains[..|pains| - 1], show) + [PainCard(pains[|pains| - 1], show)]
  }

  function PainCards(themes: seq<Dict>, show: Value -> string): seq<Opportunity>
  {
    if themes == [] then [] else PainCards(themes[..|themes| - 1], show) + PainCardsOf(PainsOf(themes[|themes| - 1]), show)
  }

  /** The number of pain points over all themes. */
  function PainCount(themes: seq<Dict>): nat
  {
    if themes == [] then 0 else PainCount(themes[..|themes| - 1]) + |PainsOf(themes[|themes| - 1])|
  }

  /** `_extract_opportunities`. */
  function Opportunities(themes: seq<Dict>, insights: seq<Dict>, show: Value -> string): seq<Opportunity>
  {
    Map(Filter(insights, IsOpportunity), FromInsight) + PainCards(themes, show)
  }

  /** The cards for one theme: one per pain point, each high priority and linked to its pain point. */
  lemma {:induction false} PainCardsOfShape(pains: seq<Value>, show: Value -> string)
    ensures forall k :: 0 <= k < |pains| ==> PainCardsOf(pains, show)[k] == PainCard(pains[k], show)
  {
    if pains != [] {
      PainCardsOfShape(pains[..|pains| - 1], show);
    }
  }

  /** Every generated card is a high-priority card for one pain point. */
  lemma {:induction false} PainCardsShape(themes: seq<Dict>, show: Value -> string)
    ensures |PainCards(themes, show)| == PainCount(themes)
    ensures forall o :: o in PainCards(themes, show) ==>
      o.priority == JStr("high") && o.effort == JStr("medium")
      && o.linkedPainPoints.JArr? && |o.linkedPainPoints.items| == 1
  {
    if themes != [] {
      PainCardsShape(themes[..|themes| - 1], show);
      PainCardsOfShape(PainsOf(themes[|themes| - 1]), show);
    }
  }

  /**
   * Opportunities are the insights of type "opportunity", in order, followed by
   * one high-priority card per pain point per theme.
   */
  lemma OpportunitiesShape(themes: seq<Dict>, insights: seq<Dict>, show: Value -> string)
    ensures |Opportunities(themes, insights, show)| == |Filter(insights, IsOpportunity)| + PainCount(themes)
    ensures Opportunities(themes, insights, show)[..|Filter(insights, IsOpportunity)|]
      == Map(Filter(insights, IsOpportunity), FromInsight)
    ensures forall k :: |Filter(insights, IsOpportunity)| <= k < |Opportunities(themes, insights, show)| ==>
      Opportunities(themes, insights, show)[k].priority == JStr("high")
  {
    var a: seq<Opportunity> := Map(Filter(insights, IsOpportunity), FromInsight);
    var b: seq<Opportunity> := PainCards(themes, show);
    PainCardsShape(themes, show);
    assert (a + b)[..|a|] == a;
    forall k | |a| <= k < |a + b|
      ensures (a + b)[k].priority == JStr("high")
    {
      assert (a + b)[k] == b[k - |a|];
    }
  }

  /** The inner loop of `_extract_opportunities`: one card per pain point of a theme. */
  method AppendPainCards(prefix: seq<Opportunity>, pains: seq<Value>, show: Value -> string)
    returns (opportunities: seq<Opportunity>)
    ensures opportunities == prefix + PainCardsOf(pains, show)
  {
    opportunities := prefix;
    for p := 0 to |pains|
      invariant opportunities == prefix + PainCardsOf(pains[..p], show)
    {
      assert pains[..p + 1][..p] == pains[..p];
      opportunities := opportunities + [PainCard(pains[p], show)];
    }
    assert pains[..|pains|] == pains;
  }

  /** The second loop of `_extract_opportunities`: cards for every theme's pain points. */
  method AppendThemePainCards(prefix: seq<Opportunity>, themes: seq<Dict>, show: Value -> string)
    returns (opportunities: seq<Opportunity>)
    ensures opportunities == prefix + PainCards(themes, show)
  {
    opportunities := prefix;
    for t := 0 to |themes|
      invariant opportunities == prefix + PainCards(themes[..t], show)
    {
      PainCardsSnoc(themes, show, t);
      AppendAssoc(prefix, PainCards(themes[..t], show), PainCardsOf(PainsOf(themes[t]), show));
      opportunities := AppendPainCards(opportunities, PainsOf(themes[t]), show);
    }
    assert themes[..|themes|] == themes;
  }

  /** The theme loop's step: the next theme's cards follow the ones already made. */
  lemma PainCardsSnoc(themes: seq<Dict>, show: Value -> string, t: nat)
    requires t < |themes|
    ensures PainCards(themes[..t + 1], show) == PainCards(themes[..t], show) + PainCardsOf(PainsOf(themes[t]), show)
  {
    assert themes[..t + 1][..t] == themes[..t];
  }

  /** `_extract_opportunities`. */
  method ExtractOpportunities(themes: seq<Dict>, insights: seq<Dict>, show: Value -> string)
    returns (opportunities: seq<Opportunity>)
    ensures opportunities == Opportunities(themes, insights, show)
  {
    opportunities := MapFilterLoop(insights, IsOpportunity, FromInsight);
    opportunities := AppendThemePainCards(opportunities, themes, show);
  }

  function OpportunityElement(i: nat, o: Opportunity): Element
  {
    Element(CardElement, 100 + 220 * i, 750, 200, 120, "#90EE90", o.title,
      OpportunityMeta(o.description, o.priority, o.effort, o.linkedPainPoints))
  }

  /** Card i sits at (100 + 220i, 750); cards do not overlap. */
  lemma OpportunityLayout(i: nat, k: nat, o: Opportunity, p: Opportunity)
    ensures OpportunityElement(i, o).x == 100 + 220 * i && OpportunityElement(i, o).y == 750
    ensures i != k ==> Apart(OpportunityElement(i, o), OpportunityElement(k, p))
  {
  }

  // Open questions -----------------------------------------------------------------

  datatype OpenQuestion = OpenQuestion(text: Value, priority: Value)

  predicate IsQuestion(insight: Dict) { Lookup(insight, "type", JNull) == JStr("question") }

  function ToQuestion(insight: Dict): OpenQuestion
  {
    OpenQuestion(Lookup(insight, "text", JStr("Open Question")), Lookup(insight, "priority", JStr("medium")))
  }

  /** `_extract_open_questions`. */
  function OpenQuestions(insights: seq<Dict>): seq<OpenQuestion>
  {
    Map(Filter(insights, IsQuestion), ToQuestion)
  }

  /**
   * Open questions come only from insights of type "question", one each, in
   * order, with priority "medium" when the insight gives none.
   */
  lemma OpenQuestionsShape(insights: seq<Dict>)
    ensures |OpenQuestions(insights)| == |Filter(insights, IsQuestion)| <= |insights|
    ensures forall q :: q in OpenQuestions(insights) <==> exists x :: x in insights && IsQuestion(x) && q == ToQuestion(x)
    ensures forall x :: x in insights && IsQuestion(x) && "priority" !in x ==>
      OpenQuestion(Lookup(x, "text", JStr("Open Question")), JStr("medium")) in OpenQuestions(insights)
  {
    FilterMembers(insights, IsQuestion);
    MapMembers(Filter(insights, IsQuestion), ToQuestion);
  }

  /** `_extract_open_questions`. */
  method ExtractOpenQuestions(insights: seq<Dict>) returns (questions: seq<OpenQuestion>)
    ensures questions == OpenQuestions(insights)
  {
    questions := MapFilterLoop(insights, IsQuestion, ToQuestion);
  }

  function QuestionElement(i: nat, q: OpenQuestion): Element
  {
    Element(StickyElement, 100 + 250 * i, 50, 240, 40, "#FFA500", q.text, QuestionMeta(q.priority))
  }

  /** Question i sits at (100 + 250i, 50); questions do not overlap. */
  lemma QuestionLayout(i: nat, k: nat, q: OpenQuestion, r: OpenQuestion)
    ensures QuestionElement(i, q).x == 100 + 250 * i && QuestionElement(i, q).y == 50
    ensures i != k ==> Apart(QuestionElement(i, q), QuestionElement(k, r))
  {
  }

  // The board ---------------------------------------------------------------------

  /** A saved board: its short id, project, timestamps and merged elements. */
  datatype Board = Board(id: string, projectSlug: string, createdAt: string, updatedAt: string,
                         elements: map<ElementId, Element>)

  /** `get_board_url`. */
  function BoardUrl(projectSlug: string, boardId: string): string
  {
    "/boards/" + projectSlug + "/" + boardId
  }

  /** A slug without `/` and the board id can be read back from the url. */
  lemma BoardUrlInjective(slug: string, id: string, slug': string, id': string)
    requires '/' !in slug && '/' !in slug'
    requires BoardUrl(slug, id) == BoardUrl(slug', id')
    ensures slug == slug' && id == id'
  {
    var u := BoardUrl(slug, id);
    assert u[8..] == slug + "/" + id;
    assert u[8..] == slug' + "/" + id';
    SplitAtSlash(slug, id, slug', id');
  }

  /** `u/v` splits back at the first slash when `u` has none. */
  lemma SplitAtSlash(u: string, v: string, u': string, v': string)
    requires '/' !in u && '/' !in u'
    requires u + "/" + v == u' + "/" + v'
    ensures u == u' && v == v'
  {
    var s := u + "/" + v;
    assert s[|u|] == '/' && s[|u'|] == '/';
    assert forall k :: 0 <= k < |u| ==> s[k] == u[k];
    assert forall k :: 0 <= k < |u'| ==> s[k] == u'[k];
    assert u == s[..|u|] == u';
    assert v == s[|u| + 1..] == v';
  }

  /** The element dictionary `create_board` assembles from its five parts. */
  function BoardElements(themes: seq<Dict>, atoms: seq<Dict>, journeyData: Dict, insights: seq<Dict>,
                         hash: Value -> int, show: Value -> string): map<ElementId, Element>
  {
    Indexed(JourneySection, JourneySteps(journeyData), JourneyElement)
    + ClusterMap(ThemeClusters(themes, hash))
    + Indexed(QuoteSection, atoms, QuoteBankElement)
    + Indexed(OpportunitySection, Opportunities(themes, insights, show), OpportunityElement)
    + Indexed(QuestionSection, OpenQuestions(insights), QuestionElement)
  }

  /** Every key of `m` belongs to one of the families `fams`. */
  predicate Within(m: map<ElementId, Element>, fams: set<nat>)
  {
    forall id :: id in m ==> Family(id) in fams
  }

  /** Keys of the five parts of a board never clash, by the families they belong to. */
  lemma FamiliesApart(a: map<ElementId, Element>, b: map<ElementId, Element>, c: map<ElementId, Element>,
                      d: map<ElementId, Element>, e: map<ElementId, Element>)
    requires Within(a, {0}) && Within(b, {1, 2}) && Within(c, {3}) && Within(d, {4}) && Within(e, {5})
    ensures forall id :: id in a ==> id !in b && id !in c && id !in d && id !in e
    ensures forall id :: id in b ==> id !in c && id !in d && id !in e
    ensures forall id :: id in c ==> id !in d && id !in e
    ensures forall id :: id in d ==> id !in e
  {
    forall id | id in a
      ensures id !in b && id !in c && id !in d && id !in e
    {
      assert Family(id) == 0;
    }
    forall id | id in b
      ensures id !in c && id !in d && id !in e
    {
      assert Family(id) in {1, 2};
    }
    forall id | id in c
      ensures id !in d && id !in e
    {
      assert Family(id) == 3;
    }
  }

  /** Merging the five parts of a board adds their sizes. */
  lemma MergeFiveSize(a: map<ElementId, Element>, b: map<ElementId, Element>, c: map<ElementId, Element>,
                      d: map<ElementId, Element>, e: map<ElementId, Element>)
    requires Within(a, {0}) && Within(b, {1, 2}) && Within(c, {3}) && Within(d, {4}) && Within(e, {5})
    ensures |a + b + c + d + e| == |a| + |b| + |c| + |d| + |e|
  {
    FamiliesApart(a, b, c, d, e);
    MergeSize(a, b);
    MergeSize(a + b, c);
    MergeSize(a + b + c, d);
    MergeSize(a + b + c + d, e);
  }

  /** Merging the five parts of a board keeps every entry of every part. */
  lemma MergeFiveKeeps(a: map<ElementId, Element>, b: map<ElementId, Element>, c: map<ElementId, Element>,
                       d: map<ElementId, Element>, e: map<ElementId, Element>)
    requires Within(a, {0}) && Within(b, {1, 2}) && Within(c, {3}) && Within(d, {4}) && Within(e, {5})
    ensures forall id :: id in a ==> id in a + b + c + d + e && (a + b + c + d + e)[id] == a[id]
    ensures forall id :: id in b ==> id in a + b + c + d + e && (a + b + c + d + e)[id] == b[id]
    ensures forall id :: id in c ==> id in a + b + c + d + e && (a + b + c + d + e)[id] == c[id]
    ensures forall id :: id in d ==> id in a + b + c + d + e && (a + b + c + d + e)[id] == d[id]
    ensures forall id :: id in e ==> id in a + b + c + d + e && (a + b + c + d + e)[id] == e[id]
  {
    FamiliesApart(a, b, c, d, e);
  }

  /** The five parts of a board, over the families of their keys. */
  lemma MergeFive(a: map<ElementId, Element>, b: map<ElementId, Element>, c: map<ElementId, Element>,
                  d: map<ElementId, Element>, e: map<ElementId, Element>)
    requires Within(a, {0}) && Within(b, {1, 2}) && Within(c, {3}) && Within(d, {4}) && Within(e, {5})
    ensures |a + b + c + d + e| == |a| + |b| + |c| + |d| + |e|
    ensures forall id :: id in a ==> id in a + b + c + d + e && (a + b + c + d + e)[id] == a[id]
    ensures forall id :: id in b ==> id in a + b + c + d + e && (a + b + c + d + e)[id] == b[id]
    ensures forall id :: id in c ==> id in a + b + c + d + e && (a + b + c + d + e)[id] == c[id]
    ensures forall id :: id in d ==> id in a + b + c + d + e && (a + b + c + d + e)[id] == d[id]
    ensures forall id :: id in e ==> id in a + b + c + d + e && (a + b + c + d + e)[id] == e[id]
  {
    MergeFiveSize(a, b, c, d, e);
    MergeFiveKeeps(a, b, c, d, e);
  }

  function SectionFamily(sec: Section): nat
  {
    match sec
    case JourneySection => 0
    case QuoteSection => 3
    case OpportunitySection => 4
    case QuestionSection => 5
  }

  lemma IndexedFamily<T>(sec: Section, xs: seq<T>, place: (nat, T) -> Element, fam: nat)
    requires fam == SectionFamily(sec)
    ensures Within(Indexed(sec, xs, place), {fam})
  {
    IndexedKeys(sec, xs, place);
  }

  lemma ClusterFamily(clusters: seq<Cluster>)
    ensures Within(ClusterMap(clusters), {1, 2})
  {
    ClusterMapKeys(clusters);
  }

  lemma IndexedSize<T>(sec: Section, xs: seq<T>, place: (nat, T) -> Element)
    ensures |Indexed(sec, xs, place)| == |xs|
  {
    IndexedKeys(sec, xs, place);
  }

  lemma ThemeClusterCount(themes: seq<Dict>, hash: Value -> int)
    ensures |ClusterMap(ThemeClusters(themes, hash))| == |themes| + QuoteCount(themes)
  {
    ThemeClusterKeys(themes, hash);
  }

  /**
   * The five parts use disjoint key families, so the merge loses nothing: the
   * board has one element per journey step, per theme, per cluster quote, per
   * atom, per opportunity and per open question.
   */
  lemma BoardElementCount(themes: seq<Dict>, atoms: seq<Dict>, journeyData: Dict, insights: seq<Dict>,
                          hash: Value -> int, show: Value -> string)
    ensures |BoardElements(themes, atoms, journeyData, insights, hash, show)|
      == |JourneySteps(journeyData)| + |themes| + QuoteCount(themes) + |atoms|
         + |Opportunities(themes, insights, show)| + |OpenQuestions(insights)|
  {
    IndexedFamily(JourneySection, JourneySteps(journeyData), JourneyElement, 0);
    ClusterFamily(ThemeClusters(themes, hash));
    IndexedFamily(QuoteSection, atoms, QuoteBankElement, 3);
    IndexedFamily(OpportunitySection, Opportunities(themes, insights, show), OpportunityElement, 4);
    IndexedFamily(QuestionSection, OpenQuestions(insights), QuestionElement, 5);
    MergeFive(Indexed(JourneySection, JourneySteps(journeyData), JourneyElement), ClusterMap(ThemeClusters(themes, hash)),
      Indexed(QuoteSection, atoms, QuoteBankElement),
      Indexed(OpportunitySection, Opportunities(themes, insights, show), OpportunityElement),
      Indexed(QuestionSection, OpenQuestions(insights), QuestionElement));
    IndexedSize(JourneySection, JourneySteps(journeyData), JourneyElement);
    ThemeClusterCount(themes, hash);
    IndexedSize(QuoteSection, atoms, QuoteBankElement);
    IndexedSize(OpportunitySection, Opportunities(themes, insights, show), OpportunityElement);
    IndexedSize(QuestionSection, OpenQuestions(insights), QuestionElement);
  }

  /** No part overwrites another: each part's elements appear on the board unchanged. */
  lemma BoardKeepsParts(themes: seq<Dict>, atoms: seq<Dict>, journeyData: Dict, insights: seq<Dict>,
                        hash: Value -> int, show: Value -> string)
    ensures forall id :: id in Indexed(JourneySection, JourneySteps(journeyData), JourneyElement) ==>
      id in BoardElements(themes, atoms, journeyData, insights, hash, show)
      && BoardElements(themes, atoms, journeyData, insights, hash, show)[id]
         == Indexed(JourneySection, JourneySteps(journeyData), JourneyElement)[id]
    ensures forall id :: id in ClusterMap(ThemeClusters(themes, hash)) ==>
      id in BoardElements(themes, atoms, journeyData, insights, hash, show)
      && BoardElements(themes, atoms, journeyData, insights, hash, show)[id] == ClusterMap(ThemeClusters(themes, hash))[id]
    ensures forall id :: id in Indexed(QuoteSection, atoms, QuoteBankElement) ==>
      id in BoardElements(themes, atoms, journeyData, insights, hash, show)
      && BoardElements(themes, atoms, journeyData, insights, hash, show)[id] == Indexed(QuoteSection, atoms, QuoteBankElement)[id]
    ensures forall id :: id in Indexed(OpportunitySection, Opportunities(themes, insights, show), OpportunityElement) ==>
      id in BoardElements(themes, atoms, journeyData, insights, hash, show)
      && BoardElements(themes, atoms, journeyData, insights, hash, show)[id]
         == Indexed(OpportunitySection, Opportunities(themes, insights, show), OpportunityElement)[id]
    ensures forall id :: id in Indexed(QuestionSection, OpenQuestions(insights), QuestionElement) ==>
      id in BoardElements(themes, atoms, journeyData, insights, hash, show)
      && BoardElements(themes, atoms, journeyData, insights, hash, show)[id]
         == Indexed(QuestionSection, OpenQuestions(insights), QuestionElement)[id]
  {
    IndexedFamily(JourneySection, JourneySteps(journeyData), JourneyElement, 0);
    ClusterFamily(ThemeClusters(themes, hash));
    IndexedFamily(QuoteSection, atoms, QuoteBankElement, 3);
    IndexedFamily(OpportunitySection, Opportunities(themes, insights, show), OpportunityElement, 4);
    IndexedFamily(QuestionSection, OpenQuestions(insights), QuestionElement, 5);
    MergeFive(Indexed(JourneySection, JourneySteps(journeyData), JourneyElement), ClusterMap(ThemeClusters(themes, hash)),
      Indexed(QuoteSection, atoms, QuoteBankElement),
      Indexed(OpportunitySection, Opportunities(themes, insights, show), OpportunityElement),
      Indexed(QuestionSection, OpenQuestions(insights), QuestionElement));
  }

  /** Atom k of the quote bank is on the board as `quote_k`. */
  lemma BoardQuote(themes: seq<Dict>, atoms: seq<Dict>, journeyData: Dict, insights: seq<Dict>,
                   hash: Value -> int, show: Value -> string, k: nat)
    requires k < |atoms|
    ensures QuoteId(k) in BoardElements(themes, atoms, journeyData, insights, hash, show)
    ensures BoardElements(themes, atoms, journeyData, insights, hash, show)[QuoteId(k)] == QuoteBankElement(k, atoms[k])
  {
    BoardKeepsParts(themes, atoms, journeyData, insights, hash, show);
    IndexedAt(QuoteSection, atoms, QuoteBankElement, k);
  }

  /** Theme k's cluster is on the board as `theme_cluster_k`. */
  lemma BoardCluster(themes: seq<Dict>, atoms: seq<Dict>, journeyData: Dict, insights: seq<Dict>,
                     hash: Value -> int, show: Value -> string, k: nat)
    requires k < |themes|
    ensures ThemeClusterId(k) in BoardElements(themes, atoms, journeyData, insights, hash, show)
    ensures BoardElements(themes, atoms, journeyData, insights, hash, show)[ThemeClusterId(k)]
      == ClusterElement(k, themes[k], hash)
  {
    BoardKeepsParts(themes, atoms, journeyData, insights, hash, show);
    ThemeClusterBox(themes, hash, k);
  }

  /** `create_board`; the id, the timestamps and the url are given, the file and the remote stores are not modelled. */
  method CreateBoard(projectSlug: string, boardId: string, createdAt: string, updatedAt: string,
                     themes: seq<Dict>, atoms: seq<Dict>, journeyData: Dict, insights: seq<Dict>,
                     hash: Value -> int, show: Value -> string)
    returns (board: Board, url: string)
    ensures board == Board(boardId, projectSlug, createdAt, updatedAt,
                           BoardElements(themes, atoms, journeyData, insights, hash, show))
    ensures url == BoardUrl(projectSlug, boardId)
  {
    var journeyElements := CreateJourneyMap(journeyData);
    var themeElements := CreateThemeClusters(themes, hash);
    var quoteElements := PlaceAll(QuoteSection, atoms, QuoteBankElement);
    var opportunities := ExtractOpportunities(themes, insights, show);
    var opportunityElements := PlaceAll(OpportunitySection, opportunities, OpportunityElement);
    var questions := ExtractOpenQuestions(insights);
    var questionElements := PlaceAll(QuestionSection, questions, QuestionElement);
    var all := journeyElements + themeElements + quoteElements + opportunityElements + questionElements;
    board := Board(boardId, projectSlug, createdAt, updatedAt, all);
    url := BoardUrl(projectSlug, boardId);
  }
}
