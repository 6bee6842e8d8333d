/**
 * Human checkpoints: clarifying questions generated from themes, annotations,
 * detected PII and insights, and the manager that keeps the project's
 * questions, answers them and hands back the pending ones.
 *
 * A generated question is a `Draft`: its id, its checkpoint type and the
 * `Prompt` that carries what its context, question and option texts
 * interpolate. The manager turns drafts into `Question` objects, whose answer
 * fields are updated in place.
 */
module HumanCheckpoints {
  import opened Wrappers
  import opened Text
  import opened Json
  import opened Seqs

  datatype CheckpointType = ThemeQa | AnnotationReview | PiiVerification | FinalReview

  datatype Prompt =
    | ThemeClarity(theme: string, quotes: nat)
    | ThemeOverlap(theme1: string, theme2: string)
    | Underrepresented
    | LowConfidence(tag: string, confidence: real, excerpt: string)
    | InconsistentTag(tag: string)
    | PiiHandling(piiType: string, original: string)
    | WeakEvidence(theme: string)
    | GenericInsight(excerpt: string)

  /** A question as generated, before the manager stores it. */
  datatype Draft = Draft(id: string, kind: CheckpointType, prompt: Prompt)

  /** A theme: its name, its atoms (hashable atom references) and its evidence. */
  datatype Theme = Theme(name: string, atoms: seq<Value>, evidence: seq<Value>)
  /** An annotation; `confidence` is 1.0 and `context` is `""` when absent. */
  datatype Annotation = Annotation(id: string, tag: string, text: string, confidence: real, context: string)
  datatype Pii = Pii(piiType: string, original: string)
  datatype Insight = Insight(id: string, text: string)

  datatype Conflict = Conflict(theme1: string, theme2: string, overlapCount: nat, overlapping: set<Value>)
  datatype SpeakerCount = SpeakerCount(speaker: Value, count: nat)
  datatype Inconsistency = Inconsistency(tag: string, annotations: seq<Annotation>)

  // ---------------------------------------------------------------------------
  // Conflicting themes: every pair i < j whose atom sets intersect
  // ---------------------------------------------------------------------------

  function AtomSet(t: Theme): set<Value>
  {
    set x | x in t.atoms
  }

  function ConflictOf(a: Theme, b: Theme): Conflict
  {
    var overlap := AtomSet(a) * AtomSet(b);
    Conflict(a.name, b.name, |overlap|, overlap)
  }

  predicate Overlapping(a: Theme, b: Theme)
  {
    AtomSet(a) * AtomSet(b) != {}
  }

  /** The conflicts of theme `i` with themes `i + 1 .. j - 1`. */
  function ConflictRow(themes: seq<Theme>, i: nat, j: nat): seq<Conflict>
    requires i < |themes| && j <= |themes|
    decreases j
  {
    if j <= i + 1 then []
    else ConflictRow(themes, i, j - 1)
         + (if Overlapping(themes[i], themes[j - 1]) then [ConflictOf(themes[i], themes[j - 1])] else [])
  }

  /** The conflicts found by the outer loop's first `i` rounds. */
  function ConflictsBefore(themes: seq<Theme>, i: nat): seq<Conflict>
    requires i <= |themes|
  {
    if i == 0 then [] else ConflictsBefore(themes, i - 1) + ConflictRow(themes, i - 1, |themes|)
  }

  /** `_identify_conflicting_themes`'s result. */
  function Conflicts(themes: seq<Theme>): seq<Conflict>
  {
    ConflictsBefore(themes, |themes|)
  }

  /** Themes `i < k` overlap and `c` records their conflict. */
  predicate ConflictAt(themes: seq<Theme>, i: nat, k: nat, c: Conflict)
  {
    i < k < |themes| && Overlapping(themes[i], themes[k]) && c == ConflictOf(themes[i], themes[k])
  }

  lemma {:induction false} ConflictRowMembers(themes: seq<Theme>, i: nat, j: nat, c: Conflict)
    requires i < |themes| && j <= |themes|
    ensures c in ConflictRow(themes, i, j) <==> exists k: nat :: k < j && ConflictAt(themes, i, k, c)
    decreases j
  {
    if j > i + 1 {
      ConflictRowMembers(themes, i, j - 1, c);
      var prev := ConflictRow(themes, i, j - 1);
      var last := if Overlapping(themes[i], themes[j - 1]) then [ConflictOf(themes[i], themes[j - 1])] else [];
      assert ConflictRow(themes, i, j) == prev + last;
      if c in prev {
        var k: nat :| k < j - 1 && ConflictAt(themes, i, k, c);
        assert k < j;
      } else if c in last {
        assert ConflictAt(themes, i, j - 1, c);
      }
      if exists k: nat :: k < j && ConflictAt(themes, i, k, c) {
        var k: nat :| k < j && ConflictAt(themes, i, k, c);
        if k == j - 1 {
          assert c in last;
        } else {
          assert c in prev;
        }
      }
    }
  }

  /** A recorded pair's conflict is in its first theme's row. */
  lemma ConflictInRow(themes: seq<Theme>, i: nat, k: nat, c: Conflict)
    requires ConflictAt(themes, i, k, c)
    ensures c in ConflictRow(themes, i, |themes|)
  {
    ConflictRowMembers(themes, i, |themes|, c);
  }

  lemma {:induction false} ConflictsBeforeMembers(themes: seq<Theme>, n: nat, c: Conflict)
    requires n <= |themes|
    ensures c in ConflictsBefore(themes, n) <==> exists i: nat, k: nat :: i < n && ConflictAt(themes, i, k, c)
  {
    if n > 0 && c in ConflictsBefore(themes, n) {
      var prev := ConflictsBefore(themes, n - 1);
      var row := ConflictRow(themes, n - 1, |themes|);
      assert ConflictsBefore(themes, n) == prev + row;
      if c in prev {
        ConflictsBeforeMembers(themes, n - 1, c);
        var i: nat, k: nat :| i < n - 1 && ConflictAt(themes, i, k, c);
        assert i < n && ConflictAt(themes, i, k, c);
      } else {
        ConflictRowMembers(themes, n - 1, |themes|, c);
        var k: nat :| k < |themes| && ConflictAt(themes, n - 1, k, c);
        assert n - 1 < n && ConflictAt(themes, n - 1, k, c);
      }
    }
    if exists i: nat, k: nat :: i < n && ConflictAt(themes, i, k, c) {
      var i: nat, k: nat :| i < n && ConflictAt(themes, i, k, c);
      ConflictInRow(themes, i, k, c);
      ConflictInBefore(themes, n, i, c);
    }
  }

  /** The conflicts of a row before `n` are among the first `n` rows. */
  lemma {:induction false} ConflictInBefore(themes: seq<Theme>, n: nat, i: nat, c: Conflict)
    requires i < n <= |themes| && c in ConflictRow(themes, i, |themes|)
    ensures c in ConflictsBefore(themes, n)
  {
    var prev, row := ConflictsBefore(themes, n - 1), ConflictRow(themes, n - 1, |themes|);
    assert ConflictsBefore(themes, n) == prev + row;
    if i < n - 1 {
      ConflictInBefore(themes, n - 1, i, c);
      assert c in prev;
    } else {
      assert c in row;
    }
  }

  /**
   * The conflicts are exactly the pairs of themes, the first before the
   * second, whose atom sets intersect; each records the intersection and its size.
   */
  lemma ConflictsMembers(themes: seq<Theme>, c: Conflict)
    ensures c in Conflicts(themes) <==> exists i: nat, k: nat :: ConflictAt(themes, i, k, c)
    ensures c in Conflicts(themes) ==> c.overlapCount == |c.overlapping| > 0
  {
    ConflictsBeforeMembers(themes, |themes|, c);
  }

  /** The inner loop: theme `i` against every later theme. */
  method ConflictsOfTheme(themes: seq<Theme>, i: nat) returns (row: seq<Conflict>)
    requires i < |themes|
    ensures row == ConflictRow(themes, i, |themes|)
  {
    row := [];
    var j := i + 1;
    while j < |themes|
      invariant i + 1 <= j <= |themes|
      invariant row == ConflictRow(themes, i, j)
    {
      var overlap := AtomSet(themes[i]) * AtomSet(themes[j]);
      if |overlap| > 0 {
        row := row + [Conflict(themes[i].name, themes[j].name, |overlap|, overlap)];
      }
      j := j + 1;
    }
  }

  /** `_identify_conflicting_themes`. */
  method IdentifyConflictingThemes(themes: seq<Theme>) returns (conflicts: seq<Conflict>)
    ensures conflicts == Conflicts(themes)
  {
    conflicts := [];
    for i := 0 to |themes|
      invariant conflicts == ConflictsBefore(themes, i)
    {
      var row := ConflictsOfTheme(themes, i);
      conflicts := conflicts + row;
    }
  }

  // ---------------------------------------------------------------------------
  // Underrepresented voices
  // ---------------------------------------------------------------------------

  /** The sum of `counts[s]` over the keys in `keys`. */
  function SumCounts(keys: seq<Value>, counts: multiset<Value>): nat
  {
    if keys == [] then 0 else SumCounts(keys[..|keys| - 1], counts) + counts[keys[|keys| - 1]]
  }

  lemma {:induction false} SumCountsAdd(keys: seq<Value>, counts: multiset<Value>, x: Value)
    ensures SumCounts(keys, counts + multiset{x}) == SumCounts(keys, counts) + multiset(keys)[x]
  {
    if keys != [] {
      SumCountsAdd(keys[..|keys| - 1], counts, x);
      assert keys == keys[..|keys| - 1] + [keys[|keys| - 1]];
    }
  }

  /** Summing the per-speaker counts over the speakers gives back the number of atoms. */
  lemma {:induction false} SumCountsTotal(speakers: seq<Value>)
    ensures SumCounts(FirstAppearances(speakers), multiset(speakers)) == |speakers|
  {
    if speakers != [] {
      var init, x := speakers[..|speakers| - 1], speakers[|speakers| - 1];
      var keys := FirstAppearances(init);
      SumCountsTotal(init);
      FirstAppearancesShape(init);
      assert speakers == init + [x];
      SumCountsAdd(keys, multiset(init), x);
      if x in init {
        assert multiset(keys)[x] == 1 by {
          NoDuplicatesCount(keys, x);
        }
      } else {
        assert multiset(keys)[x] == 0;
        SumCountsAdd(keys, multiset(init), x);
        assert multiset(init + [x]) == multiset(init) + multiset{x};
      }
    }
  }

  lemma {:induction false} NoDuplicatesCount(keys: seq<Value>, x: Value)
    requires NoDuplicates(keys) && x in keys
    ensures multiset(keys)[x] == 1
  {
    var init, last := keys[..|keys| - 1], keys[|keys| - 1];
    assert keys == init + [last];
    if x == last {
      assert x !in init;
    } else {
      NoDuplicatesCount(init, x);
    }
  }

  /** `avg_contributions`: the mean count per speaker, 0 without atoms. */
  function MeanCount(speakers: seq<Value>): real
  {
    var keys := FirstAppearances(speakers);
    if keys == [] then 0.0 else SumCounts(keys, multiset(speakers)) as real / |keys| as real
  }

  function UnderrepresentedAmong(keys: seq<Value>, speakers: seq<Value>): seq<SpeakerCount>
  {
    if keys == [] then []
    else
      var s := keys[|keys| - 1];
      UnderrepresentedAmong(keys[..|keys| - 1], speakers)
      + (if (multiset(speakers)[s] as real) < MeanCount(speakers) * 0.5 then [SpeakerCount(s, multiset(speakers)[s])] else [])
  }

  /** `_identify_underrepresented_voices` over the atoms' speakers (`"unknown"` when absent). */
  function UnderrepresentedVoices(speakers: seq<Value>): seq<SpeakerCount>
  {
    UnderrepresentedAmong(FirstAppearances(speakers), speakers)
  }

  lemma {:induction false} UnderrepresentedAmongMembers(keys: seq<Value>, speakers: seq<Value>, sc: SpeakerCount)
    ensures sc in UnderrepresentedAmong(keys, speakers) <==>
      sc.speaker in keys && sc.count == multiset(speakers)[sc.speaker] && (sc.count as real) < MeanCount(speakers) * 0.5
  {
    if keys != [] {
      UnderrepresentedAmongMembers(keys[..|keys| - 1], speakers, sc);
      assert keys == keys[..|keys| - 1] + [keys[|keys| - 1]];
    }
  }

  /**
   * A speaker is underrepresented exactly when their atom count, times twice
   * the number of distinct speakers, is below the number of atoms: below half
   * the mean. With no atoms there is no one.
   */
  lemma UnderrepresentedMembers(speakers: seq<Value>, sc: SpeakerCount)
    ensures sc in UnderrepresentedVoices(speakers) <==>
      sc.speaker in speakers && sc.count == multiset(speakers)[sc.speaker]
      && 2 * sc.count * |FirstAppearances(speakers)| < |speakers|
    ensures speakers == [] ==> UnderrepresentedVoices(speakers) == []
  {
    var keys := FirstAppearances(speakers);
    FirstAppearancesShape(speakers);
    UnderrepresentedAmongMembers(keys, speakers, sc);
    SumCountsTotal(speakers);
    if keys != [] {
      HalfMean(sc.count, |speakers|, |keys|);
    }
  }

  /** `c < (n / k) * 0.5` in reals is `2ck < n` in naturals. */
  lemma HalfMean(c: nat, n: nat, k: nat)
    requires k > 0
    ensures (c as real) < ((n as real) / (k as real)) * 0.5 <==> 2 * c * k < n
  {
    var m := (n as real) / (k as real);
    assert m * (k as real) == n as real;
    assert (2 * c * k) as real == 2.0 * (c as real) * (k as real);
    if (c as real) < m * 0.5 {
      assert 2.0 * (c as real) < m;
      assert 2.0 * (c as real) * (k as real) < m * (k as real);
    } else {
      assert 2.0 * (c as real) >= m;
      assert 2.0 * (c as real) * (k as real) >= m * (k as real);
    }
  }

  /** The pass that fills `speaker_counts`, remembering the keys' insertion order. */
  method CountSpeakers(speakers: seq<Value>) returns (counts: map<Value, nat>, keys: seq<Value>)
    ensures keys == FirstAppearances(speakers)
    ensures forall s :: s in counts <==> s in speakers
    ensures forall s :: s in counts ==> counts[s] == multiset(speakers)[s]
  {
    counts := map[];
    keys := [];
    for k := 0 to |speakers|
      invariant keys == FirstAppearances(speakers[..k])
      invariant forall s :: s in counts <==> s in speakers[..k]
      invariant forall s :: s in counts ==> counts[s] == multiset(speakers[..k])[s]
    {
      var s := speakers[k];
      assert speakers[..k + 1] == speakers[..k] + [s];
      if s in counts {
        counts := counts[s := counts[s] + 1];
      } else {
        keys := keys + [s];
        counts := counts[s := 1];
      }
    }
    assert speakers[..|speakers|] == speakers;
  }

  /** `sum(speaker_counts.values())`, summed in key order. */
  method TotalCount(counts: map<Value, nat>, keys: seq<Value>, speakers: seq<Value>) returns (total: nat)
    requires forall s :: s in keys ==> s in counts && counts[s] == multiset(speakers)[s]
    ensures total == SumCounts(keys, multiset(speakers))
  {
    total := 0;
    for m := 0 to |keys|
      invariant total == SumCounts(keys[..m], multiset(speakers))
    {
      assert keys[..m + 1][..m] == keys[..m];
      total := total + counts[keys[m]];
    }
    assert keys[..|keys|] == keys;
  }

  /** `_identify_underrepresented_voices`. */
  method IdentifyUnderrepresentedVoices(speakers: seq<Value>) returns (result: seq<SpeakerCount>)
    ensures result == UnderrepresentedVoices(speakers)
  {
    var counts, keys := CountSpeakers(speakers);
    FirstAppearancesShape(speakers);
    var total := TotalCount(counts, keys, speakers);
    var avg := if |keys| > 0 then total as real / |keys| as real else 0.0;
    assert avg == MeanCount(speakers);
    result := SelectUnderrepresented(counts, keys, speakers, avg);
  }

  /** The second pass: the speakers whose count is below half the mean, in key order. */
  method SelectUnderrepresented(counts: map<Value, nat>, keys: seq<Value>, speakers: seq<Value>, avg: real)
    returns (result: seq<SpeakerCount>)
    requires forall s :: s in keys ==> s in counts && counts[s] == multiset(speakers)[s]
    requires avg == MeanCount(speakers)
    ensures result == UnderrepresentedAmong(keys, speakers)
  {
    result := [];
    for m := 0 to |keys|
      invariant result == UnderrepresentedAmong(keys[..m], speakers)
    {
      assert keys[..m + 1][..m] == keys[..m];
      var s := keys[m];
      if (counts[s] as real) < avg * 0.5 {
        result := result + [SpeakerCount(s, counts[s])];
      }
    }
    assert keys[..|keys|] == keys;
  }

  // ---------------------------------------------------------------------------
  // Inconsistent tagging
  // ---------------------------------------------------------------------------

  /** The annotations carrying `tag`, in order: `tag_usage[tag]`. */
  function Uses(annotations: seq<Annotation>, tag: string): seq<Annotation>
  {
    if annotations == [] then []
    else
      var last := annotations[|annotations| - 1];
      Uses(annotations[..|annotations| - 1], tag) + (if last.tag == tag then [last] else [])
  }

  function Tags(annotations: seq<Annotation>): seq<string>
  {
    seq(|annotations|, k requires 0 <= k < |annotations| => annotations[k].tag)
  }

  /** The set of the first three contexts has three members. */
  predicate SpreadOut(uses: seq<Annotation>)
  {
    |uses| > 5 && |set k | 0 <= k < 3 :: uses[k].context| > 2
  }

  function InconsistentAmong(tags: seq<string>, annotations: seq<Annotation>): seq<Inconsistency>
  {
    if tags == [] then []
    else
      var tag := tags[|tags| - 1];
      InconsistentAmong(tags[..|tags| - 1], annotations)
      + (if SpreadOut(Uses(annotations, tag)) then [Inconsistency(tag, Uses(annotations, tag))] else [])
  }

  /** `_identify_inconsistent_tagging`'s result, in the order tags first appear. */
  function Inconsistencies(annotations: seq<Annotation>): seq<Inconsistency>
  {
    InconsistentAmong(FirstAppearances(Tags(annotations)), annotations)
  }

  /** Three values make a three-element set exactly when they are pairwise different. */
  lemma ThreeDistinct(uses: seq<Annotation>)
    requires |uses| >= 3
    ensures |set k | 0 <= k < 3 :: uses[k].context| > 2 <==>
      uses[0].context != uses[1].context && uses[0].context != uses[2].context && uses[1].context != uses[2].context
  {
    var a, b, c := uses[0].context, uses[1].context, uses[2].context;
    assert (set k | 0 <= k < 3 :: uses[k].context) == {a, b, c};
    if a == b || a == c || b == c {
      assert |{a, b, c}| <= 2;
    }
  }

  lemma {:induction false} UsesShape(annotations: seq<Annotation>, tag: string)
    ensures |Uses(annotations, tag)| > 0 <==> tag in Tags(annotations)
    ensures forall a :: a in Uses(annotations, tag) ==> a.tag == tag && a in annotations
  {
    if annotations != [] {
      var init := annotations[..|annotations| - 1];
      UsesShape(init, tag);
      assert Tags(annotations) == Tags(init) + [annotations[|annotations| - 1].tag];
    }
  }

  lemma {:induction false} InconsistentAmongMembers(tags: seq<string>, annotations: seq<Annotation>, x: Inconsistency)
    ensures x in InconsistentAmong(tags, annotations) <==>
      x.tag in tags && x.annotations == Uses(annotations, x.tag) && SpreadOut(x.annotations)
  {
    if tags != [] {
      InconsistentAmongMembers(tags[..|tags| - 1], annotations, x);
      assert tags == tags[..|tags| - 1] + [tags[|tags| - 1]];
    }
  }

  /**
   * A tag is reported exactly when it is used more than five times and its
   * first three contexts are pairwise different; each tag at most once, with
   * all of its annotations.
   */
  lemma InconsistenciesMembers(annotations: seq<Annotation>, x: Inconsistency)
    ensures x in Inconsistencies(annotations) <==>
      x.annotations == Uses(annotations, x.tag) && |x.annotations| > 5
      && x.annotations[0].context != x.annotations[1].context
      && x.annotations[0].context != x.annotations[2].context
      && x.annotations[1].context != x.annotations[2].context
  {
    FirstAppearancesShape(Tags(annotations));
    InconsistentAmongMembers(FirstAppearances(Tags(annotations)), annotations, x);
    UsesShape(annotations, x.tag);
    if |Uses(annotations, x.tag)| > 5 {
      ThreeDistinct(Uses(annotations, x.tag));
    }
  }

  /** The pass that fills `tag_usage`, remembering the keys' insertion order. */
  method GroupByTag(annotations: seq<Annotation>) returns (usage: map<string, seq<Annotation>>, keys: seq<string>)
    ensures keys == FirstAppearances(Tags(annotations))
    ensures forall t :: t in usage <==> t in Tags(annotations)
    ensures forall t :: t in usage ==> usage[t] == Uses(annotations, t)
  {
    usage := map[];
    keys := [];
    for k := 0 to |annotations|
      invariant keys == FirstAppearances(Tags(annotations[..k]))
      invariant forall t :: t in usage <==> t in Tags(annotations[..k])
      invariant forall t :: t in usage ==> usage[t] == Uses(annotations[..k], t)
    {
      var a := annotations[k];
      assert annotations[..k + 1][..k] == annotations[..k];
      assert Tags(annotations[..k + 1]) == Tags(annotations[..k]) + [a.tag];
      UsesShape(annotations[..k], a.tag);
      if a.tag !in usage {
        keys := keys + [a.tag];
        usage := usage[a.tag := []];
      }
      usage := usage[a.tag := usage[a.tag] + [a]];
    }
    assert annotations[..|annotations|] == annotations;
  }

  /** The test applied to one tag's uses: more than five, and three different first contexts. */
  method IsSpreadOut(uses: seq<Annotation>) returns (flagged: bool)
    ensures flagged == SpreadOut(uses)
  {
    flagged := false;
    if |uses| > 5 {
      flagged := |set k | 0 <= k < 3 :: uses[k].context| > 2;
    }
  }

  /** `_identify_inconsistent_tagging`. */
  method IdentifyInconsistentTagging(annotations: seq<Annotation>) returns (result: seq<Inconsistency>)
    ensures result == Inconsistencies(annotations)
  {
    var usage, keys := GroupByTag(annotations);
    FirstAppearancesShape(Tags(annotations));
    assert forall m :: 0 <= m < |keys| ==> keys[m] in usage;
    result := [];
    for m := 0 to |keys|
      invariant result == InconsistentAmong(keys[..m], annotations)
    {
      assert keys[..m + 1][..m] == keys[..m];
      var uses := usage[keys[m]];
      var flagged := IsSpreadOut(uses);
      if flagged {
        result := result + [Inconsistency(keys[m], uses)];
      }
    }
    assert keys[..|keys|] == keys;
  }

  // ---------------------------------------------------------------------------
  // Generic insights
  // ---------------------------------------------------------------------------

  /** The plain phrases `re.search` looks for; none holds a regex metacharacter. */
  const GenericPatterns: seq<string> := ["users want", "people need", "everyone thinks", "most users",
    "generally speaking", "it is clear that", "obviously", "of course"]

  predicate IsGeneric(insight: Insight)
  {
    exists k :: 0 <= k < |GenericPatterns| && Contains(Lower(insight.text), GenericPatterns[k])
  }

  /** `_identify_generic_statements`'s result: the generic insights, in order, each once. */
  function GenericStatements(insights: seq<Insight>): seq<Insight>
  {
    Filter(insights, IsGeneric)
  }

  /** The inner loop over the patterns, stopped at the first match. */
  method MatchesAnyPattern(text: string) returns (found: bool)
    ensures found <==> exists k :: 0 <= k < |GenericPatterns| && Contains(text, GenericPatterns[k])
  {
    found := false;
    var k := 0;
    while k < |GenericPatterns|
      invariant 0 <= k <= |GenericPatterns|
      invariant forall m :: 0 <= m < k ==> !Contains(text, GenericPatterns[m])
    {
      if Contains(text, GenericPatterns[k]) {
        found := true;
        return;
      }
      k := k + 1;
    }
  }

  /** `_identify_generic_statements`. */
  method IdentifyGenericStatements(insights: seq<Insight>) returns (generic: seq<Insight>)
    ensures generic == GenericStatements(insights)
  {
    generic := [];
    for i := 0 to |insights|
      invariant generic == Filter(insights[..i], IsGeneric)
    {
      assert insights[..i + 1][..i] == insights[..i];
      var found := MatchesAnyPattern(Lower(insights[i].text));
      if found {
        generic := generic + [insights[i]];
      }
    }
    assert insights[..|insights|] == insights;
  }

  /** Every generic insight is reported once, in order, and nothing else is. */
  lemma GenericStatementsMembers(insights: seq<Insight>)
    ensures forall x :: x in GenericStatements(insights) <==> x in insights && IsGeneric(x)
    ensures |GenericStatements(insights)| <= |insights|
    ensures GenericStatements(insights) == [] <==> forall i :: 0 <= i < |insights| ==> !IsGeneric(insights[i])
  {
    FilterMembers(insights, IsGeneric);
    FilterEmptyIff(insights, IsGeneric);
  }

  // ---------------------------------------------------------------------------
  // Question generation
  // ---------------------------------------------------------------------------

  /** Position of a question's group within its checkpoint's list. */
  function Rank(p: Prompt): nat
  {
    match p
    case ThemeClarity(_, _) => 0
    case ThemeOverlap(_, _) => 1
    case Underrepresented => 2
    case LowConfidence(_, _, _) => 0
    case InconsistentTag(_) => 1
    case PiiHandling(_, _) => 0
    case WeakEvidence(_) => 0
    case GenericInsight(_) => 1
  }

  /** Drafts appear group by group. */
  predicate Ranked(drafts: seq<Draft>)
  {
    forall i, j :: 0 <= i < j < |drafts| ==> Rank(drafts[i].prompt) <= Rank(drafts[j].prompt)
  }

  predicate AllIn(drafts: seq<Draft>, kind: CheckpointType, rank: nat)
  {
    forall i :: 0 <= i < |drafts| ==> drafts[i].kind == kind && Rank(drafts[i].prompt) == rank
  }

  /** Three groups, each of one kind and rank, in increasing rank. */
  lemma GroupsRanked(a: seq<Draft>, b: seq<Draft>, c: seq<Draft>, kind: CheckpointType, r: nat, s: nat, t: nat)
    requires AllIn(a, kind, r) && AllIn(b, kind, s) && AllIn(c, kind, t) && r <= s <= t
    ensures Ranked(a + b + c)
    ensures forall d :: d in a + b + c ==> d.kind == kind
  {
    var abc := a + b + c;
    forall i | 0 <= i < |abc|
      ensures abc[i].kind == kind
      ensures i < |a| ==> Rank(abc[i].prompt) == r
      ensures |a| <= i < |a| + |b| ==> Rank(abc[i].prompt) == s
      ensures |a| + |b| <= i ==> Rank(abc[i].prompt) == t
    {
      if i < |a| {
        assert abc[i] == a[i];
      } else if i < |a| + |b| {
        assert abc[i] == b[i - |a|];
      } else {
        assert abc[i] == c[i - |a| - |b|];
      }
    }
  }

  predicate Unclear(t: Theme) { |t.atoms| < 3 }

  function ClarityDraft(t: Theme): Draft
  {
    Draft("theme_clarity_" + t.name, ThemeQa, ThemeClarity(t.name, |t.atoms|))
  }

  function ConflictDraft(c: Conflict): Draft
  {
    Draft("conflict_" + c.theme1 + "_" + c.theme2, ThemeQa, ThemeOverlap(c.theme1, c.theme2))
  }

  const UnderrepresentedDraft := Draft("underrepresented_voices", ThemeQa, Underrepresented)

  /** `generate_theme_questions`; `speakers` are the atoms' speakers. */
  function ThemeQuestions(themes: seq<Theme>, speakers: seq<Value>): seq<Draft>
  {
    Map(Filter(themes, Unclear), ClarityDraft)
    + Map(Conflicts(themes), ConflictDraft)
    + (if UnderrepresentedVoices(speakers) != [] then [UnderrepresentedDraft] else [])
  }

  lemma ClarityDraftsIn(themes: seq<Theme>)
    ensures AllIn(Map(Filter(themes, Unclear), ClarityDraft), ThemeQa, 0)
  {
    var m := Map(Filter(themes, Unclear), ClarityDraft);
    forall i | 0 <= i < |m|
      ensures m[i].kind == ThemeQa && Rank(m[i].prompt) == 0
    {
      MapAt(Filter(themes, Unclear), ClarityDraft, i);
    }
  }

  lemma ConflictDraftsIn(conflicts: seq<Conflict>)
    ensures AllIn(Map(conflicts, ConflictDraft), ThemeQa, 1)
  {
    var m := Map(conflicts, ConflictDraft);
    forall i | 0 <= i < |m|
      ensures m[i].kind == ThemeQa && Rank(m[i].prompt) == 1
    {
      MapAt(conflicts, ConflictDraft, i);
    }
  }

  /**
   * Theme questions number one per unclear theme, one per conflict and one
   * more when some speaker is underrepresented.
   */
  lemma ThemeQuestionsCount(themes: seq<Theme>, speakers: seq<Value>)
    ensures |ThemeQuestions(themes, speakers)| ==
      |Filter(themes, Unclear)| + |Conflicts(themes)| + (if UnderrepresentedVoices(speakers) != [] then 1 else 0)
  {
    var c: seq<Draft> := if UnderrepresentedVoices(speakers) != [] then [UnderrepresentedDraft] else [];
    assert |c| == if UnderrepresentedVoices(speakers) != [] then 1 else 0;
  }

  /**
   * Theme questions come in order: the clarity questions, then the conflict
   * questions, then at most one underrepresented-voices question.
   */
  lemma ThemeQuestionsOrder(themes: seq<Theme>, speakers: seq<Value>)
    ensures Ranked(ThemeQuestions(themes, speakers))
    ensures forall d :: d in ThemeQuestions(themes, speakers) ==> d.kind == ThemeQa
  {
    var a := Map(Filter(themes, Unclear), ClarityDraft);
    var b := Map(Conflicts(themes), ConflictDraft);
    var c: seq<Draft> := if UnderrepresentedVoices(speakers) != [] then [UnderrepresentedDraft] else [];
    assert ThemeQuestions(themes, speakers) == a + b + c;
    ClarityDraftsIn(themes);
    ConflictDraftsIn(Conflicts(themes));
    assert AllIn(c, ThemeQa, 2);
    GroupsRanked(a, b, c, ThemeQa, 0, 1, 2);
  }

  /**
   * One clarity question per theme with fewer than three atoms, one question
   * per conflicting pair, and the underrepresented-voices question exactly
   * when some speaker is underrepresented.
   */
  lemma ThemeQuestionsMembers(themes: seq<Theme>, speakers: seq<Value>)
    ensures forall t :: t in themes ==> (ClarityDraft(t) in ThemeQuestions(themes, speakers) <==> |t.atoms| < 3)
    ensures forall c :: c in Conflicts(themes) ==> ConflictDraft(c) in ThemeQuestions(themes, speakers)
    ensures UnderrepresentedDraft in ThemeQuestions(themes, speakers) <==> UnderrepresentedVoices(speakers) != []
  {
    var a := Map(Filter(themes, Unclear), ClarityDraft);
    var b := Map(Conflicts(themes), ConflictDraft);
    ClarityDraftsIn(themes);
    ConflictDraftsIn(Conflicts(themes));
    FilterMembers(themes, Unclear);
    MapMembers(Filter(themes, Unclear), ClarityDraft);
    MapMembers(Conflicts(themes), ConflictDraft);
    forall t | t in themes && ClarityDraft(t) in ThemeQuestions(themes, speakers)
      ensures |t.atoms| < 3
    {
      var d := ClarityDraft(t);
      assert Rank(d.prompt) == 0;
      assert d in a;
      var t' :| t' in Filter(themes, Unclear) && d == ClarityDraft(t');
      assert d.prompt.quotes == |t'.atoms|;
    }
    assert UnderrepresentedDraft !in a + b;
  }

  /** `generate_theme_questions`. */
  method GenerateThemeQuestions(themes: seq<Theme>, speakers: seq<Value>) returns (drafts: seq<Draft>)
    ensures drafts == ThemeQuestions(themes, speakers)
  {
    drafts := MapFilterLoop(themes, Unclear, ClarityDraft);
    var conflicts := IdentifyConflictingThemes(themes);
    drafts := AppendMapLoop(drafts, conflicts, ConflictDraft);
    var underrepresented := IdentifyUnderrepresentedVoices(speakers);
    if underrepresented != [] {
      drafts := drafts + [UnderrepresentedDraft];
    }
  }

  predicate LowConfidenceAnnotation(a: Annotation) { a.confidence < 0.7 }

  function LowConfidenceDraft(a: Annotation): Draft
  {
    Draft("low_confidence_" + a.id, AnnotationReview, LowConfidence(a.tag, a.confidence, Take(a.text, 100)))
  }

  function InconsistentDraft(x: Inconsistency): Draft
  {
    Draft("inconsistent_" + x.tag, AnnotationReview, InconsistentTag(x.tag))
  }

  /** `generate_annotation_questions`. */
  function AnnotationQuestions(annotations: seq<Annotation>): seq<Draft>
  {
    Map(Filter(annotations, LowConfidenceAnnotation), LowConfidenceDraft)
    + Map(Inconsistencies(annotations), InconsistentDraft)
  }

  /**
   * Annotation questions: the low-confidence questions, each quoting at most
   * 100 characters, then the inconsistent-tag questions.
   */
  lemma AnnotationQuestionsOrder(annotations: seq<Annotation>)
    ensures |AnnotationQuestions(annotations)| ==
      |Filter(annotations, LowConfidenceAnnotation)| + |Inconsistencies(annotations)|
    ensures Ranked(AnnotationQuestions(annotations))
    ensures forall d :: d in AnnotationQuestions(annotations) ==> d.kind == AnnotationReview
    ensures forall d :: d in AnnotationQuestions(annotations) && d.prompt.LowConfidence? ==> |d.prompt.excerpt| <= 100
  {
    var a := Map(Filter(annotations, LowConfidenceAnnotation), LowConfidenceDraft);
    var b := Map(Inconsistencies(annotations), InconsistentDraft);
    LowConfidenceDraftsIn(Filter(annotations, LowConfidenceAnnotation));
    InconsistentDraftsIn(Inconsistencies(annotations));
    GroupsRanked(a, b, [], AnnotationReview, 0, 1, 1);
    assert a + b + [] == a + b;
  }

  lemma LowConfidenceDraftsIn(lows: seq<Annotation>)
    ensures AllIn(Map(lows, LowConfidenceDraft), AnnotationReview, 0)
    ensures forall d :: d in Map(lows, LowConfidenceDraft) ==> d.prompt.LowConfidence? && |d.prompt.excerpt| <= 100
  {
    var a := Map(lows, LowConfidenceDraft);
    forall i | 0 <= i < |a|
      ensures a[i].kind == AnnotationReview && Rank(a[i].prompt) == 0
      ensures a[i].prompt.LowConfidence? && |a[i].prompt.excerpt| <= 100
    {
      MapAt(lows, LowConfidenceDraft, i);
    }
  }

  lemma InconsistentDraftsIn(inconsistent: seq<Inconsistency>)
    ensures AllIn(Map(inconsistent, InconsistentDraft), AnnotationReview, 1)
  {
    var b := Map(inconsistent, InconsistentDraft);
    forall i | 0 <= i < |b|
      ensures b[i].kind == AnnotationReview && Rank(b[i].prompt) == 1
    {
      MapAt(inconsistent, InconsistentDraft, i);
    }
  }

  /**
   * One question per annotation with confidence below 0.7 and one per
   * inconsistently used tag.
   */
  lemma AnnotationQuestionsMembers(annotations: seq<Annotation>)
    ensures forall a :: a in annotations ==>
      (LowConfidenceDraft(a) in AnnotationQuestions(annotations) <==> a.confidence < 0.7)
    ensures forall x :: x in Inconsistencies(annotations) ==> InconsistentDraft(x) in AnnotationQuestions(annotations)
  {
    var lows := Filter(annotations, LowConfidenceAnnotation);
    var a := Map(lows, LowConfidenceDraft);
    var b := Map(Inconsistencies(annotations), InconsistentDraft);
    FilterMembers(annotations, LowConfidenceAnnotation);
    MapMembers(lows, LowConfidenceDraft);
    MapMembers(Inconsistencies(annotations), InconsistentDraft);
    forall an | an in annotations && LowConfidenceDraft(an) in a + b
      ensures an.confidence < 0.7
    {
      var d := LowConfidenceDraft(an);
      var an' :| an' in lows && d == LowConfidenceDraft(an');
      assert d.prompt.confidence == an'.confidence;
    }
  }

  /** `generate_annotation_questions`. */
  method GenerateAnnotationQuestions(annotations: seq<Annotation>) returns (drafts: seq<Draft>)
    ensures drafts == AnnotationQuestions(annotations)
  {
    drafts := MapFilterLoop(annotations, LowConfidenceAnnotation, LowConfidenceDraft);
    var inconsistent := IdentifyInconsistentTagging(annotations);
    drafts := AppendMapLoop(drafts, inconsistent, InconsistentDraft);
  }

  /** The question `generate_pii_questions` raises for one detection. */
  function PiiDraft(p: Pii, hash: string -> int): Draft
  {
    Draft("pii_" + p.piiType + "_" + IntStr(hash(p.original)), PiiVerification, PiiHandling(p.piiType, p.original))
  }

  /**
   * `generate_pii_questions`: one question per detection, in order. `hash`
   * stands for Python's per-process string hash, an input here.
   */
  function PiiQuestions(detected: seq<Pii>, hash: string -> int): (r: seq<Draft>)
    ensures |r| == |detected|
  {
    if detected == [] then []
    else PiiQuestions(detected[..|detected| - 1], hash) + [PiiDraft(detected[|detected| - 1], hash)]
  }

  /** Question `i` verifies detection `i`, with that detection's type and text. */
  lemma {:induction false} PiiQuestionsAt(detected: seq<Pii>, hash: string -> int, i: int)
    requires 0 <= i < |detected|
    ensures PiiQuestions(detected, hash)[i].kind == PiiVerification
    ensures PiiQuestions(detected, hash)[i].prompt == PiiHandling(detected[i].piiType, detected[i].original)
  {
    var init := detected[..|detected| - 1];
    if i < |init| {
      PiiQuestionsAt(init, hash, i);
      assert init[i] == detected[i];
    }
  }

  /** `generate_pii_questions`. */
  method GeneratePiiQuestions(detected: seq<Pii>, hash: string -> int) returns (drafts: seq<Draft>)
    ensures drafts == PiiQuestions(detected, hash)
  {
    drafts := [];
    for i := 0 to |detected|
      invariant drafts == PiiQuestions(detected[..i], hash)
    {
      assert detected[..i + 1][..i] == detected[..i];
      drafts := drafts + [PiiDraft(detected[i], hash)];
    }
    assert detected[..|detected|] == detected;
  }

  predicate WeaklyEvidenced(t: Theme) { |t.evidence| < 2 }

  function EvidenceDraft(t: Theme): Draft
  {
    Draft("evidence_" + t.name, FinalReview, WeakEvidence(t.name))
  }

  function GenericDraft(i: Insight): Draft
  {
    Draft("generic_" + i.id, FinalReview, GenericInsight(Take(i.text, 100)))
  }

  /** `generate_final_review_questions`. */
  function FinalReviewQuestions(themes: seq<Theme>, insights: seq<Insight>): seq<Draft>
  {
    Map(Filter(themes, WeaklyEvidenced), EvidenceDraft) + Map(GenericStatements(insights), GenericDraft)
  }

  /**
   * Final review: the weak-evidence questions, in theme order, then the
   * generic-insight questions.
   */
  lemma FinalReviewQuestionsOrder(themes: seq<Theme>, insights: seq<Insight>)
    ensures |FinalReviewQuestions(themes, insights)| ==
      |Filter(themes, WeaklyEvidenced)| + |GenericStatements(insights)|
    ensures Ranked(FinalReviewQuestions(themes, insights))
    ensures forall d :: d in FinalReviewQuestions(themes, insights) ==> d.kind == FinalReview
  {
    var weak := Filter(themes, WeaklyEvidenced);
    var a := Map(weak, EvidenceDraft);
    var b := Map(GenericStatements(insights), GenericDraft);
    forall i | 0 <= i < |a|
      ensures a[i].kind == FinalReview && Rank(a[i].prompt) == 0
    {
      MapAt(weak, EvidenceDraft, i);
    }
    forall i | 0 <= i < |b|
      ensures b[i].kind == FinalReview && Rank(b[i].prompt) == 1
    {
      MapAt(GenericStatements(insights), GenericDraft, i);
    }
    GroupsRanked(a, b, [], FinalReview, 0, 1, 1);
    assert a + b + [] == a + b;
  }

  /**
   * The weak-evidence questions are exactly one per theme with fewer than
   * two evidence items; every generic insight gets a question.
   */
  lemma FinalReviewQuestionsMembers(themes: seq<Theme>, insights: seq<Insight>)
    ensures forall t :: t in themes && |t.evidence| < 2 ==> EvidenceDraft(t) in FinalReviewQuestions(themes, insights)
    ensures forall d :: d in FinalReviewQuestions(themes, insights) && d.prompt.WeakEvidence? ==>
      exists t :: t in themes && |t.evidence| < 2 && d == EvidenceDraft(t)
    ensures forall x :: x in insights && IsGeneric(x) ==> GenericDraft(x) in FinalReviewQuestions(themes, insights)
  {
    var weak := Filter(themes, WeaklyEvidenced);
    var a := Map(weak, EvidenceDraft);
    var b := Map(GenericStatements(insights), GenericDraft);
    FilterMembers(themes, WeaklyEvidenced);
    MapMembers(weak, EvidenceDraft);
    GenericStatementsMembers(insights);
    MapMembers(GenericStatements(insights), GenericDraft);
    forall d: Draft | d in a + b && d.prompt.WeakEvidence?
      ensures d in a
    {
    }
  }

  /** `generate_final_review_questions`. */
  method GenerateFinalReviewQuestions(themes: seq<Theme>, insights: seq<Insight>) returns (drafts: seq<Draft>)
    ensures drafts == FinalReviewQuestions(themes, insights)
  {
    drafts := MapFilterLoop(themes, WeaklyEvidenced, EvidenceDraft);
    var generic := IdentifyGenericStatements(insights);
    drafts := AppendMapLoop(drafts, generic, GenericDraft);
  }

  // ---------------------------------------------------------------------------
  // Stored questions and the manager
  // ---------------------------------------------------------------------------

  /** A clarifying question as the manager keeps it; only its answer changes. */
  class Question {
    const id: string
    const kind: CheckpointType
    const prompt: Prompt
    const createdAt: string
    var answer: Option<string>
    var answeredAt: Option<string>

    /** A generated question, unanswered, created at `now`. */
    constructor (draft: Draft, now: string)
      ensures id == draft.id && kind == draft.kind && prompt == draft.prompt && createdAt == now
      ensures answer == None && answeredAt == None
    {
      id := draft.id;
      kind := draft.kind;
      prompt := draft.prompt;
      createdAt := now;
      answer := None;
      answeredAt := None;
    }
  }

  /** Builds the question objects for a list of drafts, all created at `now`. */
  method NewQuestions(drafts: seq<Draft>, now: string) returns (qs: seq<Question>)
    ensures |qs| == |drafts|
    ensures forall i :: 0 <= i < |qs| ==> fresh(qs[i])
    ensures forall i :: 0 <= i < |qs| ==>
      qs[i].id == drafts[i].id && qs[i].kind == drafts[i].kind && qs[i].prompt == drafts[i].prompt
      && qs[i].createdAt == now && qs[i].answer == None && qs[i].answeredAt == None
  {
    qs := [];
    for i := 0 to |drafts|
      invariant |qs| == i
      invariant forall j :: 0 <= j < i ==> fresh(qs[j])
      invariant forall j :: 0 <= j < i ==>
        qs[j].id == drafts[j].id && qs[j].kind == drafts[j].kind && qs[j].prompt == drafts[j].prompt
        && qs[j].createdAt == now && qs[j].answer == None && qs[j].answeredAt == None
    {
      var q := new Question(drafts[i], now);
      qs := qs + [q];
    }
  }

  /** The unanswered questions, in order. */
  function PendingOf(qs: seq<Question>): seq<Question>
    reads set q | q in qs
  {
    if qs == [] then []
    else
      var last := qs[|qs| - 1];
      PendingOf(qs[..|qs| - 1]) + (if last.answer == None then [last] else [])
  }

  /** Exactly the questions without an answer are pending. */
  lemma {:induction false} PendingMembers(qs: seq<Question>)
    ensures forall q :: q in PendingOf(qs) <==> q in qs && q.answer == None
    ensures |PendingOf(qs)| <= |qs|
  {
    if qs != [] {
      PendingMembers(qs[..|qs| - 1]);
      assert qs == qs[..|qs| - 1] + [qs[|qs| - 1]];
    }
  }

  /** Pending questions keep their order: the filter distributes over concatenation. */
  lemma {:induction false} PendingConcat(qs: seq<Question>, rs: seq<Question>)
    ensures PendingOf(qs + rs) == PendingOf(qs) + PendingOf(rs)
    decreases |rs|
  {
    if rs != [] {
      var init := rs[..|rs| - 1];
      assert (qs + rs)[..|qs + rs| - 1] == qs + init;
      PendingConcat(qs, init);
    } else {
      assert qs + rs == qs;
    }
  }

  /** The position of the first question with the given id, or the length when there is none. */
  function FirstWithId(qs: seq<Question>, id: string): (k: nat)
    ensures k <= |qs|
    ensures k < |qs| ==> qs[k].id == id
    ensures forall j :: 0 <= j < k ==> qs[j].id != id
  {
    if qs == [] then 0
    else if qs[0].id == id then 0
    else 1 + FirstWithId(qs[1..], id)
  }

  /** The search loop of `answer_question`. */
  method FindQuestion(qs: seq<Question>, id: string) returns (k: nat)
    ensures k == FirstWithId(qs, id)
  {
    k := 0;
    while k < |qs| && qs[k].id != id
      invariant k <= |qs|
      invariant forall j :: 0 <= j < k ==> qs[j].id != id
    {
      k := k + 1;
    }
  }

  /** The question `answer_question` updates: the first one with the id, if any. */
  function Target(qs: seq<Question>, id: string): (t: set<Question>)
    ensures |t| <= 1
    ensures forall q :: q in t ==> q in qs && q.id == id
    ensures t == {} <==> forall j :: 0 <= j < |qs| ==> qs[j].id != id
  {
    var k := FirstWithId(qs, id);
    if k < |qs| then {qs[k]} else {}
  }

  /**
   * `HumanCheckpointManager`: the questions of one project, kept in memory.
   * Reading and writing `/DropZone/<slug>/qa/questions.json` is not modelled:
   * the constructor receives what the file held.
   */
  class CheckpointManager {
    const projectSlug: string
    var questions: seq<Question>

    constructor (projectSlug: string, stored: seq<Question>)
      ensures this.projectSlug == projectSlug && questions == stored
    {
      this.projectSlug := projectSlug;
      questions := stored;
    }

    /** `save_questions`: appends its argument to the questions held. */
    method SaveQuestions(qs: seq<Question>)
      modifies this
      ensures questions == old(questions) + qs
    {
      questions := questions + qs;
    }

    /** `get_pending_questions`. */
    method GetPendingQuestions() returns (pending: seq<Question>)
      ensures pending == PendingOf(questions)
    {
      pending := [];
      for i := 0 to |questions|
        invariant pending == PendingOf(questions[..i])
      {
        assert questions[..i + 1][..i] == questions[..i];
        if questions[i].answer == None {
          pending := pending + [questions[i]];
        }
      }
      assert questions[..|questions|] == questions;
    }

    /**
     * `answer_question`: the first question with the id, if any, records the
     * answer and the time; no other question changes. Saving passes the list
     * itself, so afterwards every question object appears twice.
     */
    method AnswerQuestion(id: string, answer: string, now: string)
      modifies this, questions
      ensures questions == old(questions) + old(questions)
      ensures forall q :: q in Target(old(questions), id) ==> q.answer == Some(answer) && q.answeredAt == Some(now)
      ensures forall q :: q in old(questions) && q !in Target(old(questions), id) ==>
        q.answer == old(q.answer) && q.answeredAt == old(q.answeredAt)
    {
      var k := FindQuestion(questions, id);
      if k < |questions| {
        questions[k].answer := Some(answer);
        questions[k].answeredAt := Some(now);
      }
      SaveQuestions(questions);
    }
  }
}
