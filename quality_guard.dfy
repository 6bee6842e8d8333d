/**
 * The quality guard: a fixed battery of checks over a project's themes,
 * atoms, insights and board, each with a pass flag, a score in [0, 1], a
 * severity and one recommendation, aggregated into a report.
 *
 * Inputs are typed records holding what the checks read: a theme's name,
 * its description (`""` when absent), its evidence list and its atoms (`[]`
 * when absent); an atom's speaker (`"unknown"` when absent) and text (`""`
 * when absent); an insight's title (`"Untitled"` when absent) and text; and
 * the `metadata.type` of each board element (`null` when absent).
 */
module QualityGuard {
  import opened Text
  import opened Json
  import opened Seqs

  datatype Severity = Critical | Warning | Info

  datatype Atom = Atom(speaker: Value, text: string)
  datatype Theme = Theme(name: string, description: string, evidence: seq<Value>, atoms: seq<Atom>)
  datatype Insight = Insight(title: Value, text: string)

  datatype GenericHit = GenericHit(insight: Value, pattern: string, text: string)
  datatype CausalHit = CausalHit(theme: string, description: string, evidenceCount: nat, supportingQuotes: nat)
  datatype PersonaHit = PersonaHit(theme: string, persona: string, context: string)
  datatype Issue = ThemeMissingName(theme: Theme) | ThemeMissingEvidence(name: string) | AtomMissingText(atom: Atom)

  /** The `details` dictionary of each kind of check. */
  datatype Details =
    | EvidenceDetails(theme: string, evidenceCount: nat, requiredMinimum: nat)
    | ThemeDiversityDetails(theme: string, uniqueParticipants: nat, totalQuotes: nat)
    | UniquenessDetails(totalQuotes: nat, uniqueQuotes: nat, duplicateCount: nat, duplicates: seq<Value>)
    | DiversityDetails(totalUniqueParticipants: nat, themes: nat, participantsPerTheme: map<string, nat>)
    | GenericDetails(genericInsightsCount: nat, genericExamples: seq<GenericHit>)
    | CausalDetails(ungroundedCausalCount: nat, causalExamples: seq<CausalHit>)
    | PersonaDetails(genericPersonasCount: nat, personaExamples: seq<PersonaHit>)
    | IntegrityDetails(missingDataCount: nat, issues: seq<Issue>)
    | BoardDetails(missingElements: seq<string>)

  /**
   * The `check_name`s: a pair per theme, then the seven fixed checks.
   * `NameText` renders each as the source spells it.
   */
  datatype CheckName =
    | ThemeEvidence(theme: string) | ThemeDiversity(theme: string)
    | QuoteUniqueness | ParticipantDiversity | GenericStatements | CausalStatements
    | PersonaClarity | DataIntegrity | BoardCompleteness

  function NameText(n: CheckName): string
  {
    match n
    case ThemeEvidence(theme) => "theme_evidence_" + theme
    case ThemeDiversity(theme) => "theme_diversity_" + theme
    case QuoteUniqueness => "quote_uniqueness"
    case ParticipantDiversity => "participant_diversity"
    case GenericStatements => "generic_statements"
    case CausalStatements => "causal_statements"
    case PersonaClarity => "persona_clarity"
    case DataIntegrity => "data_integrity"
    case BoardCompleteness => "board_completeness"
  }

  /**
   * The recommendation texts. Both diversity checks share one wording, so
   * they share a constructor, and equal texts are equal messages.
   */
  datatype Message =
    | AddQuotes(count: nat) | EvidenceSufficient
    | IncludePerspectives(count: nat) | DiversitySufficient
    | RemoveDuplicates | QuotesUnique
    | ReplaceGeneric | NoGeneric
    | AddCausalSupport | CausalGrounded
    | ReplacePersonas | PersonasSpecific
    | CompleteData | IntegrityMaintained
    | AddMissing(elements: seq<string>) | BoardComplete

  function MessageText(m: Message): string
  {
    match m
    case AddQuotes(n) => "Add " + NatStr(n) + " more supporting quotes"
    case EvidenceSufficient => "Evidence sufficient"
    case IncludePerspectives(n) => "Include perspectives from " + NatStr(n) + " more participants"
    case DiversitySufficient => "Diversity sufficient"
    case RemoveDuplicates => "Remove duplicate quotes"
    case QuotesUnique => "All quotes are unique"
    case ReplaceGeneric => "Replace generic statements with specific evidence"
    case NoGeneric => "No generic statements found"
    case AddCausalSupport => "Add supporting evidence for causal claims"
    case CausalGrounded => "All causal statements are grounded"
    case ReplacePersonas => "Replace generic personas with specific participant descriptions"
    case PersonasSpecific => "Personas are specific and grounded"
    case CompleteData => "Complete missing data fields"
    case IntegrityMaintained => "Data integrity maintained"
    case AddMissing(elements) => "Add missing elements: " + JoinWith(elements, ", ")
    case BoardComplete => "Board is complete"
  }

  /** `QualityCheck`. */
  datatype Check = Check(name: CheckName, passed: bool, score: real, details: Details,
                         recommendations: seq<Message>, severity: Severity)

  /** Every check the guard builds: severity `Info` exactly when it passed, and a score in [0, 1]. */
  predicate Consistent(c: Check)
  {
    (c.severity == Info <==> c.passed) && 0.0 <= c.score <= 1.0
  }

  function MinReal(a: real, b: real): real
  {
    if a <= b then a else b
  }

  /**
   * The shape shared by the seven fixed checks: it passes when nothing was
   * found; a failure scores `failScore` with severity `failSeverity`.
   */
  function Verdict(name: CheckName, ok: bool, failScore: real, failSeverity: Severity, details: Details,
                   okRec: Message, failRec: Message): Check
  {
    Check(name, ok, if ok then 1.0 else failScore, details, [if ok then okRec else failRec],
          if ok then Info else failSeverity)
  }

  lemma VerdictConsistent(name: CheckName, ok: bool, failScore: real, failSeverity: Severity, details: Details,
                          okRec: Message, failRec: Message)
    requires 0.0 <= failScore <= 1.0 && failSeverity != Info
    ensures var c := Verdict(name, ok, failScore, failSeverity, details, okRec, failRec);
      Consistent(c) && c.name == name && (c.passed <==> ok)
      && (c.severity == failSeverity <==> !ok) && (ok ==> c.score == 1.0)
  {
  }

  // ---------------------------------------------------------------------------
  // Evidence sufficiency: two checks per theme
  // ---------------------------------------------------------------------------

  /** The distinct speakers of a theme's atoms. */
  function Speakers(atoms: seq<Atom>): set<Value>
  {
    set a | a in atoms :: a.speaker
  }

  function EvidenceRecommendation(n: nat): Message
  {
    if n < 2 then AddQuotes(2 - n) else EvidenceSufficient
  }

  function ThemeDiversityRecommendation(n: nat): Message
  {
    if n < 2 then IncludePerspectives(2 - n) else DiversitySufficient
  }

  /** The `theme_evidence_<name>` check. */
  function EvidenceCheck(t: Theme): Check
  {
    var n := |t.evidence|;
    Check(ThemeEvidence(t.name), n >= 2, MinReal(1.0, n as real / 3.0),
          EvidenceDetails(t.name, n, 2), [EvidenceRecommendation(n)], if n < 2 then Critical else Info)
  }

  /** The `theme_diversity_<name>` check. */
  function ThemeDiversityCheck(t: Theme): Check
  {
    var n := |Speakers(t.atoms)|;
    Check(ThemeDiversity(t.name), n >= 2, MinReal(1.0, n as real / 3.0),
          ThemeDiversityDetails(t.name, n, |t.evidence|), [ThemeDiversityRecommendation(n)],
          if n < 2 then Warning else Info)
  }

  /**
   * A theme's evidence check passes exactly with two evidence items or more,
   * is critical exactly when it fails, and scores min(1, n/3).
   */
  lemma EvidenceCheckShape(t: Theme)
    ensures var c := EvidenceCheck(t);
      && (c.passed <==> |t.evidence| >= 2)
      && (c.severity == Critical <==> !c.passed)
      && c.score == (if |t.evidence| >= 3 then 1.0 else |t.evidence| as real / 3.0)
      && Consistent(c)
  {
  }

  /** A theme's diversity check passes exactly with two distinct speakers or more; a failure is a warning. */
  lemma ThemeDiversityCheckShape(t: Theme)
    ensures var c := ThemeDiversityCheck(t);
      && (c.passed <==> |Speakers(t.atoms)| >= 2)
      && (c.severity == Warning <==> !c.passed)
      && c.score == (if |Speakers(t.atoms)| >= 3 then 1.0 else |Speakers(t.atoms)| as real / 3.0)
      && Consistent(c)
  {
  }

  /** `f` and then `g` applied to each element in turn. */
  function Paired<T, U>(s: seq<T>, f: T -> U, g: T -> U): seq<U>
  {
    if s == [] then [] else Paired(s[..|s| - 1], f, g) + [f(s[|s| - 1]), g(s[|s| - 1])]
  }

  lemma {:induction false} PairedLength<T, U>(s: seq<T>, f: T -> U, g: T -> U)
    ensures |Paired(s, f, g)| == 2 * |s|
  {
    if s != [] {
      PairedLength(s[..|s| - 1], f, g);
    }
  }

  lemma {:induction false} PairedAt<T, U>(s: seq<T>, f: T -> U, g: T -> U)
    ensures |Paired(s, f, g)| == 2 * |s|
    ensures forall i :: 0 <= i < |s| ==> Paired(s, f, g)[2 * i] == f(s[i]) && Paired(s, f, g)[2 * i + 1] == g(s[i])
  {
    if s != [] {
      var init := s[..|s| - 1];
      PairedAt(init, f, g);
      var all := Paired(s, f, g);
      assert all[..2 * |init|] == Paired(init, f, g);
      forall i | 0 <= i < |init|
        ensures all[2 * i] == f(s[i]) && all[2 * i + 1] == g(s[i])
      {
        assert s[i] == init[i];
        assert all[2 * i] == all[..2 * |init|][2 * i];
        assert all[2 * i + 1] == all[..2 * |init|][2 * i + 1];
      }
    }
  }

  /** The checks of the themes, two per theme, in theme order. */
  function EvidenceChecks(themes: seq<Theme>): seq<Check>
  {
    Paired(themes, EvidenceCheck, ThemeDiversityCheck)
  }

  /** Theme i's evidence check is check 2i and its diversity check is check 2i + 1. */
  lemma EvidenceChecksAt(themes: seq<Theme>)
    ensures |EvidenceChecks(themes)| == 2 * |themes|
    ensures forall i :: 0 <= i < |themes| ==>
              EvidenceChecks(themes)[2 * i] == EvidenceCheck(themes[i])
              && EvidenceChecks(themes)[2 * i + 1] == ThemeDiversityCheck(themes[i])
  {
    PairedAt(themes, EvidenceCheck, ThemeDiversityCheck);
  }

  /** `_validate_evidence_sufficiency`. */
  method ValidateEvidenceSufficiency(themes: seq<Theme>) returns (checks: seq<Check>)
    ensures checks == EvidenceChecks(themes)
  {
    checks := [];
    for i := 0 to |themes|
      invariant checks == Paired(themes[..i], EvidenceCheck, ThemeDiversityCheck)
    {
      assert themes[..i + 1][..i] == themes[..i];
      checks := checks + [EvidenceCheck(themes[i]), ThemeDiversityCheck(themes[i])];
    }
    assert themes[..|themes|] == themes;
  }

  // ---------------------------------------------------------------------------
  // Quote uniqueness
  // ---------------------------------------------------------------------------

  /** Every theme's evidence, concatenated in theme order. */
  function AllQuotes(themes: seq<Theme>): seq<Value>
  {
    if themes == [] then [] else AllQuotes(themes[..|themes| - 1]) + themes[|themes| - 1].evidence
  }

  /** The occurrences of quotes already seen earlier in the list, in order. */
  function Duplicates(q: seq<Value>): seq<Value>
  {
    if q == [] then []
    else Duplicates(q[..|q| - 1]) + (if q[|q| - 1] in q[..|q| - 1] then [q[|q| - 1]] else [])
  }

  function Distinct(q: seq<Value>): set<Value>
  {
    set x | x in q
  }

  /** Every quote is either the first of its kind or a duplicate: total = unique + duplicates. */
  lemma {:induction false} DuplicatesCount(q: seq<Value>)
    ensures |q| == |Distinct(q)| + |Duplicates(q)|
  {
    if q != [] {
      var init, last := q[..|q| - 1], q[|q| - 1];
      DuplicatesCount(init);
      assert q == init + [last];
      assert Distinct(q) == Distinct(init) + {last};
      if last !in init {
        assert last !in Distinct(init);
      } else {
        assert last in Distinct(init);
      }
    }
  }

  /** All quotes are pairwise different. */
  predicate NoRepeats(q: seq<Value>)
  {
    forall i, j :: 0 <= i < j < |q| ==> q[i] != q[j]
  }

  /** There are no duplicates exactly when all quotes are pairwise different. */
  lemma {:induction false} DuplicatesEmptyIff(q: seq<Value>)
    ensures Duplicates(q) == [] <==> NoRepeats(q)
  {
    if q != [] {
      var init, last := q[..|q| - 1], q[|q| - 1];
      DuplicatesEmptyIff(init);
      if Duplicates(q) == [] {
        forall i, j | 0 <= i < j < |q|
          ensures q[i] != q[j]
        {
          if j < |q| - 1 {
            assert q[i] == init[i] && q[j] == init[j];
          } else {
            assert q[i] == init[i];
          }
        }
      } else if Duplicates(init) == [] {
        var i :| 0 <= i < |init| && init[i] == last;
        assert q[i] == q[|q| - 1];
      } else {
        var i, j :| 0 <= i < j < |init| && init[i] == init[j];
        assert q[i] == q[j];
      }
    }
  }

  /** The `all_quotes` list: each theme's evidence extended in turn. */
  method CollectQuotes(themes: seq<Theme>) returns (all: seq<Value>)
    ensures all == AllQuotes(themes)
  {
    all := [];
    for i := 0 to |themes|
      invariant all == AllQuotes(themes[..i])
    {
      assert themes[..i + 1][..i] == themes[..i];
      all := all + themes[i].evidence;
    }
    assert themes[..|themes|] == themes;
  }

  /** The scan with a `seen` set, collecting each quote already seen. */
  method ScanDuplicates(all: seq<Value>) returns (seen: set<Value>, duplicates: seq<Value>)
    ensures seen == Distinct(all) && duplicates == Duplicates(all)
  {
    seen := {};
    duplicates := [];
    for k := 0 to |all|
      invariant seen == Distinct(all[..k])
      invariant duplicates == Duplicates(all[..k])
    {
      assert all[..k + 1][..k] == all[..k];
      assert all[..k + 1] == all[..k] + [all[k]];
      if all[k] in seen {
        duplicates := duplicates + [all[k]];
      }
      seen := seen + {all[k]};
    }
    assert all[..|all|] == all;
  }

  /** The `quote_uniqueness` check. */
  function UniquenessCheck(themes: seq<Theme>): (c: Check)
    ensures Consistent(c) && c.name == QuoteUniqueness
  {
    var q := AllQuotes(themes);
    var d := Duplicates(q);
    Verdict(QuoteUniqueness, d == [], 0.5, Warning, UniquenessDetails(|q|, |Distinct(q)|, |d|, FirstN(d, 5)),
            QuotesUnique, RemoveDuplicates)
  }

  /**
   * The uniqueness check passes exactly when no quote occurs twice across all
   * themes' evidence, and every quote is counted as unique or as a duplicate.
   */
  lemma UniquenessCheckShape(themes: seq<Theme>)
    ensures var c := UniquenessCheck(themes);
      && Consistent(c)
      && (c.passed <==> NoRepeats(AllQuotes(themes)))
      && (c.severity == Warning <==> !c.passed)
      && c.details.totalQuotes == c.details.uniqueQuotes + c.details.duplicateCount
      && c.details.totalQuotes == |AllQuotes(themes)|
      && |c.details.duplicates| <= 5
  {
    DuplicatesEmptyIff(AllQuotes(themes));
    DuplicatesCount(AllQuotes(themes));
  }

  /** `_validate_quote_uniqueness`: the scan over all quotes with a `seen` set. */
  method ValidateQuoteUniqueness(themes: seq<Theme>) returns (c: Check)
    ensures c == UniquenessCheck(themes)
  {
    var all := CollectQuotes(themes);
    var seen, duplicates := ScanDuplicates(all);
    var ok := duplicates == [];
    c := Verdict(QuoteUniqueness, ok, 0.5, Warning,
                 UniquenessDetails(|all|, |seen|, |duplicates|, FirstN(duplicates, 5)),
                 QuotesUnique, RemoveDuplicates);
  }

  // ---------------------------------------------------------------------------
  // Participant diversity across themes
  // ---------------------------------------------------------------------------

  /** The distinct speakers over every theme's atoms. */
  function AllSpeakers(themes: seq<Theme>): set<Value>
  {
    if themes == [] then {} else AllSpeakers(themes[..|themes| - 1]) + Speakers(themes[|themes| - 1].atoms)
  }

  /** `participants_per_theme`: a later theme with the same name replaces an earlier one. */
  function PerTheme(themes: seq<Theme>): map<string, nat>
  {
    if themes == [] then map[]
    else PerTheme(themes[..|themes| - 1])[themes[|themes| - 1].name := |Speakers(themes[|themes| - 1].atoms)|]
  }

  function OverallDiversityRecommendation(n: nat): Message
  {
    if n < 3 then IncludePerspectives(3 - n) else DiversitySufficient
  }

  /** One theme's `participants` set, built atom by atom. */
  method ThemeSpeakers(atoms: seq<Atom>) returns (participants: set<Value>)
    ensures participants == Speakers(atoms)
  {
    participants := {};
    for k := 0 to |atoms|
      invariant participants == Speakers(atoms[..k])
    {
      assert Speakers(atoms[..k + 1]) == Speakers(atoms[..k]) + {atoms[k].speaker} by {
        assert atoms[..k + 1] == atoms[..k] + [atoms[k]];
      }
      participants := participants + {atoms[k].speaker};
    }
    assert atoms[..|atoms|] == atoms;
  }

  /** The scan over the themes: all speakers, and each theme name's participant count. */
  method CollectSpeakers(themes: seq<Theme>) returns (all: set<Value>, perTheme: map<string, nat>)
    ensures all == AllSpeakers(themes) && perTheme == PerTheme(themes)
  {
    all := {};
    perTheme := map[];
    for i := 0 to |themes|
      invariant all == AllSpeakers(themes[..i])
      invariant perTheme == PerTheme(themes[..i])
    {
      assert themes[..i + 1][..i] == themes[..i];
      var participants := ThemeSpeakers(themes[i].atoms);
      all := all + participants;
      perTheme := perTheme[themes[i].name := |participants|];
    }
    assert themes[..|themes|] == themes;
  }

  /** The `participant_diversity` check. */
  function ParticipantDiversityCheck(themes: seq<Theme>): (c: Check)
    ensures Consistent(c) && c.name == ParticipantDiversity
  {
    var n := |AllSpeakers(themes)|;
    Check(ParticipantDiversity, n >= 3, MinReal(1.0, n as real / 5.0),
          DiversityDetails(n, |themes|, PerTheme(themes)), [OverallDiversityRecommendation(n)],
          if n < 3 then Warning else Info)
  }

  /** A speaker is counted exactly when some theme has an atom from them. */
  lemma {:induction false} AllSpeakersMembers(themes: seq<Theme>, v: Value)
    ensures v in AllSpeakers(themes) <==> exists i, a :: 0 <= i < |themes| && a in themes[i].atoms && a.speaker == v
  {
    if themes != [] {
      var init := themes[..|themes| - 1];
      AllSpeakersMembers(init, v);
      if v in AllSpeakers(init) {
        var i, a :| 0 <= i < |init| && a in init[i].atoms && a.speaker == v;
        assert themes[i] == init[i];
      }
      if exists i, a :: 0 <= i < |themes| && a in themes[i].atoms && a.speaker == v {
        var i, a :| 0 <= i < |themes| && a in themes[i].atoms && a.speaker == v;
        if i < |init| {
          assert init[i] == themes[i];
        }
      }
    }
  }

  /**
   * `participants_per_theme` has one entry per theme name, and a name's entry
   * counts the distinct speakers of the last theme carrying that name.
   */
  lemma {:induction false} PerThemeLast(themes: seq<Theme>)
    ensures PerTheme(themes).Keys == set t | t in themes :: t.name
    ensures forall i :: 0 <= i < |themes| && (forall j :: i < j < |themes| ==> themes[j].name != themes[i].name) ==>
              PerTheme(themes)[themes[i].name] == |Speakers(themes[i].atoms)|
  {
    if themes != [] {
      var init := themes[..|themes| - 1];
      PerThemeLast(init);
      assert themes == init + [themes[|themes| - 1]];
      forall i | 0 <= i < |themes| - 1 && (forall j :: i < j < |themes| ==> themes[j].name != themes[i].name)
        ensures PerTheme(themes)[themes[i].name] == |Speakers(themes[i].atoms)|
      {
        assert themes[i] == init[i];
        assert forall j :: i < j < |init| ==> init[j] == themes[j];
      }
    }
  }

  /** The overall diversity check passes exactly with three distinct speakers or more. */
  lemma ParticipantDiversityCheckShape(themes: seq<Theme>)
    ensures var c := ParticipantDiversityCheck(themes);
      && Consistent(c)
      && (c.passed <==> |AllSpeakers(themes)| >= 3)
      && (c.severity == Warning <==> !c.passed)
      && c.score == (if |AllSpeakers(themes)| >= 5 then 1.0 else |AllSpeakers(themes)| as real / 5.0)
  {
  }

  /** `_validate_participant_diversity`. */
  method ValidateParticipantDiversity(themes: seq<Theme>) returns (c: Check)
    ensures c == ParticipantDiversityCheck(themes)
  {
    var all, perTheme := CollectSpeakers(themes);
    var total := |all|;
    c := Check(ParticipantDiversity, total >= 3, MinReal(1.0, total as real / 5.0),
               DiversityDetails(total, |themes|, perTheme), [OverallDiversityRecommendation(total)],
               if total < 3 then Warning else Info);
  }

  // ---------------------------------------------------------------------------
  // Generic statements in insights
  // ---------------------------------------------------------------------------

  /** The phrases behind the `\b<phrase>\b` patterns for cliches. */
  const GenericPhrases: seq<string> := ["users want", "people need", "everyone thinks", "most users",
    "generally speaking", "it is clear that", "obviously", "of course", "common sense", "as we all know"]

  /** The pattern as the source writes it, backslashes included. */
  function Pattern(phrase: string): string
  {
    "\\b" + phrase + "\\b"
  }

  /** `phrase` occurs in `s` at `i` with a word boundary on both sides. */
  predicate WordAt(s: string, phrase: string, i: nat)
  {
    i + |phrase| <= |s| && s[i..i + |phrase|] == phrase
    && (i == 0 || !IsWordChar(s[i - 1]))
    && (i + |phrase| == |s| || !IsWordChar(s[i + |phrase|]))
  }

  /**
   * `re.search(r'\b' + phrase + r'\b', s)` for a phrase that starts and ends
   * with a letter: a word-bounded occurrence somewhere in `s`.
   */
  predicate WordMatch(s: string, phrase: string)
  {
    exists i: nat :: i <= |s| && WordAt(s, phrase, i)
  }

  /** One insight's hits against `phrases`, in pattern order. */
  function PhraseHits(ins: Insight, phrases: seq<string>): seq<GenericHit>
  {
    if phrases == [] then []
    else
      var p := phrases[|phrases| - 1];
      PhraseHits(ins, phrases[..|phrases| - 1])
      + (if WordMatch(Lower(ins.text), p) then [GenericHit(ins.title, Pattern(p), Ellipsize(Lower(ins.text), 100))] else [])
  }

  /** An insight produces no hit exactly when none of the phrases occurs in it as words. */
  lemma {:induction false} PhraseHitsEmptyIff(ins: Insight, phrases: seq<string>)
    ensures PhraseHits(ins, phrases) == [] <==> forall k :: 0 <= k < |phrases| ==> !WordMatch(Lower(ins.text), phrases[k])
  {
    if phrases != [] {
      var init := phrases[..|phrases| - 1];
      PhraseHitsEmptyIff(ins, init);
      assert forall k :: 0 <= k < |init| ==> init[k] == phrases[k];
    }
  }

  function GenericHitsOf(ins: Insight): seq<GenericHit>
  {
    PhraseHits(ins, GenericPhrases)
  }

  /** `generic_insights`. */
  function GenericHits(insights: seq<Insight>): seq<GenericHit>
  {
    Flatten(insights, GenericHitsOf)
  }

  /** The `generic_statements` check. */
  function GenericCheck(insights: seq<Insight>): (c: Check)
    ensures Consistent(c) && c.name == GenericStatements
  {
    var hits := GenericHits(insights);
    Verdict(GenericStatements, hits == [], 0.7, Warning, GenericDetails(|hits|, FirstN(hits, 3)),
            NoGeneric, ReplaceGeneric)
  }

  /** The generic-statement check passes exactly when no insight uses any of the cliches as words. */
  lemma GenericCheckPassesIff(insights: seq<Insight>)
    ensures GenericCheck(insights).passed <==>
      forall i, k :: 0 <= i < |insights| && 0 <= k < |GenericPhrases| ==> !WordMatch(Lower(insights[i].text), GenericPhrases[k])
    ensures Consistent(GenericCheck(insights))
  {
    FlattenEmptyIff(insights, GenericHitsOf);
    forall i | 0 <= i < |insights|
      ensures GenericHitsOf(insights[i]) == [] <==>
        forall k :: 0 <= k < |GenericPhrases| ==> !WordMatch(Lower(insights[i].text), GenericPhrases[k])
    {
      PhraseHitsEmptyIff(insights[i], GenericPhrases);
    }
  }

  /** One insight's hits, pattern by pattern. */
  method ScanInsight(ins: Insight) returns (hits: seq<GenericHit>)
    ensures hits == GenericHitsOf(ins)
  {
    var text := Lower(ins.text);
    hits := [];
    for k := 0 to |GenericPhrases|
      invariant hits == PhraseHits(ins, GenericPhrases[..k])
    {
      assert GenericPhrases[..k + 1][..k] == GenericPhrases[..k];
      var p := GenericPhrases[k];
      if WordMatch(text, p) {
        hits := hits + [GenericHit(ins.title, Pattern(p), Ellipsize(text, 100))];
      }
    }
    assert GenericPhrases[..|GenericPhrases|] == GenericPhrases;
  }

  /** `_validate_generic_statements`. */
  method ValidateGenericStatements(insights: seq<Insight>) returns (c: Check)
    ensures c == GenericCheck(insights)
  {
    var hits: seq<GenericHit> := [];
    for i := 0 to |insights|
      invariant hits == Flatten(insights[..i], GenericHitsOf)
    {
      FlattenSnoc(insights, GenericHitsOf, i);
      var row := ScanInsight(insights[i]);
      hits := hits + row;
    }
    assert insights[..|insights|] == insights;
    c := Verdict(GenericStatements, hits == [], 0.7, Warning, GenericDetails(|hits|, FirstN(hits, 3)),
                 NoGeneric, ReplaceGeneric);
  }

  // ---------------------------------------------------------------------------
  // Causal statements in theme descriptions
  // ---------------------------------------------------------------------------

  const CausalPhrases: seq<string> := ["because", "causes", "leads to", "results in", "therefore", "as a result", "due to"]

  /** The description uses causal language: some causal phrase occurs in it as words. */
  predicate HasCausal(description: string)
  {
    exists k :: 0 <= k < |CausalPhrases| && WordMatch(Lower(description), CausalPhrases[k])
  }

  /**
   * An atom counts as supporting when its lowered text contains one of the
   * patterns as a plain substring: the pattern text itself, backslashes and all.
   */
  predicate Supports(a: Atom)
  {
    exists k :: 0 <= k < |CausalPhrases| && Contains(Lower(a.text), Pattern(CausalPhrases[k]))
  }

  /** `supporting_quotes`. */
  function SupportingCount(atoms: seq<Atom>): nat
  {
    |Filter(atoms, Supports)|
  }

  function CausalHitsOf(t: Theme): seq<CausalHit>
  {
    if HasCausal(t.description) && SupportingCount(t.atoms) < 2
    then [CausalHit(t.name, Lower(t.description), |t.evidence|, SupportingCount(t.atoms))]
    else []
  }

  /** `ungrounded_causal`. */
  function CausalHits(themes: seq<Theme>): seq<CausalHit>
  {
    Flatten(themes, CausalHitsOf)
  }

  /** The `causal_statements` check. */
  function CausalCheck(themes: seq<Theme>): (c: Check)
    ensures Consistent(c) && c.name == CausalStatements
  {
    var hits := CausalHits(themes);
    Verdict(CausalStatements, hits == [], 0.8, Warning, CausalDetails(|hits|, FirstN(hits, 2)),
            CausalGrounded, AddCausalSupport)
  }

  /** The causal check passes exactly when every theme with causal language has two supporting atoms. */
  lemma CausalCheckPassesIff(themes: seq<Theme>)
    ensures CausalCheck(themes).passed <==>
      forall i :: 0 <= i < |themes| && HasCausal(themes[i].description) ==> SupportingCount(themes[i].atoms) >= 2
    ensures Consistent(CausalCheck(themes))
  {
    FlattenEmptyIff(themes, CausalHitsOf);
  }

  /** `p in s` for a non-empty `p` needs the first character of `p` in `s`. */
  lemma {:induction false} ContainsFirstChar(s: string, p: string)
    requires p != [] && Contains(s, p)
    ensures p[0] in s
    decreases |s|
  {
    if !StartsWith(s, p) {
      ContainsFirstChar(s[1..], p);
    }
  }

  /** Only an atom whose text holds a backslash can support a causal claim. */
  lemma SupportNeedsBackslash(a: Atom)
    requires Supports(a)
    ensures '\\' in a.text
  {
    var k :| 0 <= k < |CausalPhrases| && Contains(Lower(a.text), Pattern(CausalPhrases[k]));
    ContainsFirstChar(Lower(a.text), Pattern(CausalPhrases[k]));
    var j :| 0 <= j < |Lower(a.text)| && Lower(a.text)[j] == '\\';
    assert a.text[j] == '\\';
  }

  /** So a theme with causal language whose atoms hold no backslash always fails the check. */
  lemma UngroundedWithoutBackslash(themes: seq<Theme>, i: nat)
    requires i < |themes| && HasCausal(themes[i].description)
    requires forall a :: a in themes[i].atoms ==> '\\' !in a.text
    ensures !CausalCheck(themes).passed
  {
    forall a | a in themes[i].atoms
      ensures !Supports(a)
    {
      if Supports(a) {
        SupportNeedsBackslash(a);
      }
    }
    FilterEmptyIff(themes[i].atoms, Supports);
    CausalCheckPassesIff(themes);
  }

  /** `_validate_causal_statements`. */
  method ValidateCausalStatements(themes: seq<Theme>) returns (c: Check)
    ensures c == CausalCheck(themes)
  {
    var hits: seq<CausalHit> := [];
    for i := 0 to |themes|
      invariant hits == Flatten(themes[..i], CausalHitsOf)
    {
      FlattenSnoc(themes, CausalHitsOf, i);
      var t := themes[i];
      if HasCausal(t.description) {
        var supporting := SupportingCount(t.atoms);
        if supporting < 2 {
          hits := hits + [CausalHit(t.name, Lower(t.description), |t.evidence|, supporting)];
        }
      }
    }
    assert themes[..|themes|] == themes;
    c := Verdict(CausalStatements, hits == [], 0.8, Warning, CausalDetails(|hits|, FirstN(hits, 2)),
                 CausalGrounded, AddCausalSupport);
  }

  // ---------------------------------------------------------------------------
  // Generic personas in theme descriptions
  // ---------------------------------------------------------------------------

  const GenericPersonas: seq<string> := ["busy professional", "tech-savvy user", "millennial", "power user",
    "casual user", "average person", "typical user", "general user"]

  /** One theme's persona hits against `personas`, in list order. */
  function PersonaMatches(t: Theme, personas: seq<string>): seq<PersonaHit>
  {
    if personas == [] then []
    else
      var p := personas[|personas| - 1];
      PersonaMatches(t, personas[..|personas| - 1])
      + (if Contains(Lower(t.description), p) then [PersonaHit(t.name, p, Ellipsize(Lower(t.description), 100))] else [])
  }

  lemma {:induction false} PersonaMatchesEmptyIff(t: Theme, personas: seq<string>)
    ensures PersonaMatches(t, personas) == [] <==> forall k :: 0 <= k < |personas| ==> !Contains(Lower(t.description), personas[k])
  {
    if personas != [] {
      var init := personas[..|personas| - 1];
      PersonaMatchesEmptyIff(t, init);
      assert forall k :: 0 <= k < |init| ==> init[k] == personas[k];
    }
  }

  function PersonaHitsOf(t: Theme): seq<PersonaHit>
  {
    PersonaMatches(t, GenericPersonas)
  }

  /** `generic_persona_usage`. */
  function PersonaHits(themes: seq<Theme>): seq<PersonaHit>
  {
    Flatten(themes, PersonaHitsOf)
  }

  /** The `persona_clarity` check. */
  function PersonaCheck(themes: seq<Theme>): (c: Check)
    ensures Consistent(c) && c.name == PersonaClarity
  {
    var hits := PersonaHits(themes);
    Verdict(PersonaClarity, hits == [], 0.6, Warning, PersonaDetails(|hits|, FirstN(hits, 3)),
            PersonasSpecific, ReplacePersonas)
  }

  /** The persona check passes exactly when no description mentions any of the generic personas. */
  lemma PersonaCheckPassesIff(themes: seq<Theme>)
    ensures PersonaCheck(themes).passed <==>
      forall i, k :: 0 <= i < |themes| && 0 <= k < |GenericPersonas| ==> !Contains(Lower(themes[i].description), GenericPersonas[k])
    ensures Consistent(PersonaCheck(themes))
  {
    FlattenEmptyIff(themes, PersonaHitsOf);
    forall i | 0 <= i < |themes|
      ensures PersonaHitsOf(themes[i]) == [] <==>
        forall k :: 0 <= k < |GenericPersonas| ==> !Contains(Lower(themes[i].description), GenericPersonas[k])
    {
      PersonaMatchesEmptyIff(themes[i], GenericPersonas);
    }
  }

  /** One theme's persona hits, persona by persona. */
  method ScanDescription(t: Theme) returns (hits: seq<PersonaHit>)
    ensures hits == PersonaHitsOf(t)
  {
    var description := Lower(t.description);
    hits := [];
    for k := 0 to |GenericPersonas|
      invariant hits == PersonaMatches(t, GenericPersonas[..k])
    {
      assert GenericPersonas[..k + 1][..k] == GenericPersonas[..k];
      var p := GenericPersonas[k];
      if Contains(description, p) {
        hits := hits + [PersonaHit(t.name, p, Ellipsize(description, 100))];
      }
    }
    assert GenericPersonas[..|GenericPersonas|] == GenericPersonas;
  }

  /** `_validate_persona_clarity`. */
  method ValidatePersonaClarity(themes: seq<Theme>) returns (c: Check)
    ensures c == PersonaCheck(themes)
  {
    var hits: seq<PersonaHit> := [];
    for i := 0 to |themes|
      invariant hits == Flatten(themes[..i], PersonaHitsOf)
    {
      FlattenSnoc(themes, PersonaHitsOf, i);
      var row := ScanDescription(themes[i]);
      hits := hits + row;
    }
    assert themes[..|themes|] == themes;
    c := Verdict(PersonaClarity, hits == [], 0.6, Warning, PersonaDetails(|hits|, FirstN(hits, 3)),
                 PersonasSpecific, ReplacePersonas);
  }

  // ---------------------------------------------------------------------------
  // Data integrity
  // ---------------------------------------------------------------------------

  function ThemeIssues(t: Theme): seq<Issue>
  {
    (if t.name == "" then [ThemeMissingName(t)] else [])
    + (if t.evidence == [] then [ThemeMissingEvidence(t.name)] else [])
  }

  function AtomIssues(a: Atom): seq<Issue>
  {
    if a.text == "" then [AtomMissingText(a)] else []
  }

  /** `missing_data`: the themes' issues in order, then the atoms'. */
  function Issues(themes: seq<Theme>, atoms: seq<Atom>): seq<Issue>
  {
    Flatten(themes, ThemeIssues) + Flatten(atoms, AtomIssues)
  }

  /** The `data_integrity` check. */
  function IntegrityCheck(themes: seq<Theme>, atoms: seq<Atom>): (c: Check)
    ensures Consistent(c) && c.name == DataIntegrity
  {
    var issues := Issues(themes, atoms);
    Verdict(DataIntegrity, issues == [], 0.5, Critical, IntegrityDetails(|issues|, FirstN(issues, 5)),
            IntegrityMaintained, CompleteData)
  }

  /**
   * Integrity holds exactly when every theme has a name and evidence and
   * every atom has text; otherwise the check is critical.
   */
  lemma IntegrityCheckPassesIff(themes: seq<Theme>, atoms: seq<Atom>)
    ensures IntegrityCheck(themes, atoms).passed <==>
      (forall i :: 0 <= i < |themes| ==> themes[i].name != "" && themes[i].evidence != [])
      && (forall j :: 0 <= j < |atoms| ==> atoms[j].text != "")
    ensures Consistent(IntegrityCheck(themes, atoms))
    ensures !IntegrityCheck(themes, atoms).passed <==> IntegrityCheck(themes, atoms).severity == Critical
  {
    FlattenEmptyIff(themes, ThemeIssues);
    FlattenEmptyIff(atoms, AtomIssues);
  }

  /** `_validate_data_integrity`. */
  method ValidateDataIntegrity(themes: seq<Theme>, atoms: seq<Atom>) returns (c: Check)
    ensures c == IntegrityCheck(themes, atoms)
  {
    var missing: seq<Issue> := [];
    for i := 0 to |themes|
      invariant missing == Flatten(themes[..i], ThemeIssues)
    {
      FlattenSnoc(themes, ThemeIssues, i);
      var t := themes[i];
      var row: seq<Issue> := [];
      if t.name == "" {
        row := row + [ThemeMissingName(t)];
      }
      if t.evidence == [] {
        row := row + [ThemeMissingEvidence(t.name)];
      }
      missing := missing + row;
    }
    assert themes[..|themes|] == themes;
    for j := 0 to |atoms|
      invariant missing == Flatten(themes, ThemeIssues) + Flatten(atoms[..j], AtomIssues)
    {
      FlattenSnoc(atoms, AtomIssues, j);
      AppendAssoc(Flatten(themes, ThemeIssues), Flatten(atoms[..j], AtomIssues), AtomIssues(atoms[j]));
      if atoms[j].text == "" {
        missing := missing + [AtomMissingText(atoms[j])];
      }
    }
    assert atoms[..|atoms|] == atoms;
    c := Verdict(DataIntegrity, missing == [], 0.5, Critical, IntegrityDetails(|missing|, FirstN(missing, 5)),
                 IntegrityMaintained, CompleteData);
  }

  // ---------------------------------------------------------------------------
  // Board completeness
  // ---------------------------------------------------------------------------

  const RequiredElements: seq<string> := ["journey_map", "theme_clusters", "quote_bank", "opportunities"]

  /** The required element types no board element carries, in `required` order. */
  function Missing(types: seq<Value>, required: seq<string>): seq<string>
  {
    if required == [] then []
    else Missing(types, required[..|required| - 1])
         + (if JStr(required[|required| - 1]) in types then [] else [required[|required| - 1]])
  }

  /** An element type is reported missing exactly when it is required and no element has it. */
  lemma {:induction false} MissingMembers(types: seq<Value>, required: seq<string>)
    ensures forall r :: r in Missing(types, required) <==> r in required && JStr(r) !in types
  {
    if required != [] {
      MissingMembers(types, required[..|required| - 1]);
      assert required == required[..|required| - 1] + [required[|required| - 1]];
    }
  }

  /** The `board_completeness` check over the `metadata.type` of each board element. */
  function BoardCheck(types: seq<Value>): (c: Check)
    ensures Consistent(c) && c.name == BoardCompleteness
  {
    var missing := Missing(types, RequiredElements);
    Verdict(BoardCompleteness, missing == [], 0.8, Warning, BoardDetails(missing),
            BoardComplete, AddMissing(missing))
  }

  /** The board passes exactly when all four required element types occur. */
  lemma BoardCheckPassesIff(types: seq<Value>)
    ensures BoardCheck(types).passed <==>
      JStr("journey_map") in types && JStr("theme_clusters") in types
      && JStr("quote_bank") in types && JStr("opportunities") in types
    ensures Consistent(BoardCheck(types))
    ensures forall r :: r in BoardCheck(types).details.missingElements <==> r in RequiredElements && JStr(r) !in types
  {
    MissingMembers(types, RequiredElements);
    var missing := Missing(types, RequiredElements);
    if missing != [] {
      assert missing[0] in missing;
    }
  }

  /** `_validate_board_completeness`. */
  method ValidateBoardCompleteness(types: seq<Value>) returns (c: Check)
    ensures c == BoardCheck(types)
  {
    var missing: seq<string> := [];
    for k := 0 to |RequiredElements|
      invariant missing == Missing(types, RequiredElements[..k])
    {
      assert RequiredElements[..k + 1][..k] == RequiredElements[..k];
      if JStr(RequiredElements[k]) !in types {
        missing := missing + [RequiredElements[k]];
      }
    }
    assert RequiredElements[..|RequiredElements|] == RequiredElements;
    c := Verdict(BoardCompleteness, missing == [], 0.8, Warning, BoardDetails(missing),
                 BoardComplete, AddMissing(missing));
  }

  // ---------------------------------------------------------------------------
  // The report
  // ---------------------------------------------------------------------------

  /** The report's `status`: `PASSED` or `FAILED`. */
  datatype Status = Passed | Failed

  /** The `next_steps` texts; `StepText` renders each as the source spells it. */
  datatype Step =
    | AddressCritical | EnhanceEvidence | ReviewWarnings | DiversifyPerspectives | ReplaceGenericStep
    | MeetsStandards | ReadyForPresentation

  function StepText(s: Step): string
  {
    match s
    case AddressCritical => "Address all critical issues before finalizing"
    case EnhanceEvidence => "Review and enhance evidence for themes with insufficient support"
    case ReviewWarnings => "Review warnings and consider improvements"
    case DiversifyPerspectives => "Add more diverse participant perspectives"
    case ReplaceGenericStep => "Replace generic statements with specific evidence"
    case MeetsStandards => "Research synthesis meets quality standards"
    case ReadyForPresentation => "Ready for stakeholder presentation"
  }

  datatype Summary = Summary(totalChecks: nat, passed: nat, failed: nat, criticalIssues: nat, warnings: nat)

  /**
   * `_generate_validation_report`'s result. Recommendations are a set: the
   * source deduplicates them through `set`, which fixes no order.
   */
  datatype Report = Report(timestamp: string, projectSlug: string, overallScore: real, status: Status,
                           summary: Summary, criticalIssues: seq<Check>, warnings: seq<Check>, info: seq<Check>,
                           recommendations: set<string>, nextSteps: seq<Step>)

  predicate IsCriticalIssue(c: Check) { c.severity == Critical && !c.passed }
  predicate IsWarning(c: Check) { c.severity == Warning && !c.passed }
  predicate IsInfo(c: Check) { c.severity == Info }
  predicate IsPassed(c: Check) { c.passed }
  predicate IsFailed(c: Check) { !c.passed }

  function ScoreSum(checks: seq<Check>): real
  {
    if checks == [] then 0.0 else ScoreSum(checks[..|checks| - 1]) + checks[|checks| - 1].score
  }

  /** `overall_score`: the mean score, or 0 without checks. */
  function OverallScore(checks: seq<Check>): real
  {
    if checks == [] then 0.0 else ScoreSum(checks) / |checks| as real
  }

  /** `_generate_recommendations`: every recommendation of a critical issue or a warning. */
  function Recommendations(critical: seq<Check>, warnings: seq<Check>): set<string>
  {
    set c, m | c in critical + warnings && m in c.recommendations :: MessageText(m)
  }

  const CleanSteps: seq<Step> := [MeetsStandards, ReadyForPresentation]

  /** `_generate_next_steps`. */
  function NextSteps(critical: seq<Check>, warnings: seq<Check>): seq<Step>
  {
    (if critical != [] then [AddressCritical, EnhanceEvidence] else [])
    + (if warnings != [] then [ReviewWarnings, DiversifyPerspectives, ReplaceGenericStep] else [])
    + (if critical == [] && warnings == [] then CleanSteps else [])
  }

  function GenerateReport(projectSlug: string, timestamp: string, checks: seq<Check>): Report
  {
    var critical := Filter(checks, IsCriticalIssue);
    var warnings := Filter(checks, IsWarning);
    Report(timestamp, projectSlug, OverallScore(checks), if critical == [] then Passed else Failed,
           Summary(|checks|, |Filter(checks, IsPassed)|, |Filter(checks, IsFailed)|, |critical|, |warnings|),
           critical, warnings, Filter(checks, IsInfo), Recommendations(critical, warnings),
           NextSteps(critical, warnings))
  }

  /** With consistent checks, every check is exactly one of: a critical issue, a warning, an info item. */
  lemma {:induction false} Partition(checks: seq<Check>)
    requires forall k :: 0 <= k < |checks| ==> Consistent(checks[k])
    ensures |Filter(checks, IsCriticalIssue)| + |Filter(checks, IsWarning)| + |Filter(checks, IsInfo)| == |checks|
  {
    if checks != [] {
      Partition(checks[..|checks| - 1]);
      assert Consistent(checks[|checks| - 1]);
    }
  }

  /** The score sum stays within [0, number of checks]. */
  lemma {:induction false} ScoreSumBounds(checks: seq<Check>)
    requires forall k :: 0 <= k < |checks| ==> Consistent(checks[k])
    ensures 0.0 <= ScoreSum(checks) <= |checks| as real
  {
    if checks != [] {
      ScoreSumBounds(checks[..|checks| - 1]);
      assert Consistent(checks[|checks| - 1]);
    }
  }

  /** Passed and failed add up to the total, and so do critical issues, warnings and info items. */
  lemma ReportCounts(projectSlug: string, timestamp: string, checks: seq<Check>)
    requires forall k :: 0 <= k < |checks| ==> Consistent(checks[k])
    ensures var s := GenerateReport(projectSlug, timestamp, checks).summary;
      s.passed + s.failed == s.totalChecks == |checks|
    ensures var r := GenerateReport(projectSlug, timestamp, checks);
      r.summary.criticalIssues + r.summary.warnings + |r.info| == |checks|
  {
    FilterSplit(checks, IsPassed, IsFailed);
    Partition(checks);
  }

  /** The overall score is the mean of scores in [0, 1], so it lies in [0, 1]. */
  lemma ReportScore(projectSlug: string, timestamp: string, checks: seq<Check>)
    requires forall k :: 0 <= k < |checks| ==> Consistent(checks[k])
    ensures 0.0 <= GenerateReport(projectSlug, timestamp, checks).overallScore <= 1.0
  {
    ScoreSumBounds(checks);
    if checks != [] {
      var n := |checks| as real;
      assert ScoreSum(checks) / n <= 1.0 by {
        assert ScoreSum(checks) <= n;
      }
    }
  }

  /** The status is FAILED exactly when some check failed critically, and PASSED otherwise. */
  lemma ReportStatus(projectSlug: string, timestamp: string, checks: seq<Check>)
    ensures var r := GenerateReport(projectSlug, timestamp, checks);
      (r.status == Failed <==> exists k :: 0 <= k < |checks| && checks[k].severity == Critical && !checks[k].passed)
      && (r.status == Passed <==> forall k :: 0 <= k < |checks| ==> !IsCriticalIssue(checks[k]))
  {
    FilterEmptyIff(checks, IsCriticalIssue);
  }

  /** A recommendation is reported exactly when some failing, non-info check makes it. */
  lemma RecommendationsIff(checks: seq<Check>, rec: string)
    ensures rec in Recommendations(Filter(checks, IsCriticalIssue), Filter(checks, IsWarning)) <==>
      exists c, m :: c in checks && !c.passed && c.severity != Info && m in c.recommendations && MessageText(m) == rec
  {
    FilterMembers(checks, IsCriticalIssue);
    FilterMembers(checks, IsWarning);
    if exists c, m :: c in checks && !c.passed && c.severity != Info && m in c.recommendations && MessageText(m) == rec {
      var c, m :| c in checks && !c.passed && c.severity != Info && m in c.recommendations && MessageText(m) == rec;
      assert c in Filter(checks, IsCriticalIssue) + Filter(checks, IsWarning);
    }
  }

  /** The "ready" steps are given exactly when there is neither a critical issue nor a warning. */
  lemma NextStepsClean(critical: seq<Check>, warnings: seq<Check>)
    ensures NextSteps(critical, warnings) == CleanSteps <==> critical == [] && warnings == []
  {
    if critical != [] {
      assert NextSteps(critical, warnings)[0] != CleanSteps[0];
    } else if warnings != [] {
      assert NextSteps(critical, warnings)[0] != CleanSteps[0];
    }
  }

  // ---------------------------------------------------------------------------
  // The full validation
  // ---------------------------------------------------------------------------

  /** The names of the seven fixed checks, in the order they run. */
  const FixedNames: seq<CheckName> := [QuoteUniqueness, ParticipantDiversity, GenericStatements,
    CausalStatements, PersonaClarity, DataIntegrity, BoardCompleteness]

  /** Every check in the list is consistent. */
  predicate AllConsistent(cs: seq<Check>)
  {
    forall k :: 0 <= k < |cs| ==> Consistent(cs[k])
  }

  /** The seven checks that follow the per-theme ones, each consistent, in a fixed order of names. */
  function FixedChecks(themes: seq<Theme>, atoms: seq<Atom>, insights: seq<Insight>, boardTypes: seq<Value>): (r: seq<Check>)
    ensures |r| == 7 && AllConsistent(r)
    ensures forall j :: 0 <= j < 7 ==> r[j].name == FixedNames[j]
  {
    var u, d, g := UniquenessCheck(themes), ParticipantDiversityCheck(themes), GenericCheck(insights);
    var c, p, i, b := CausalCheck(themes), PersonaCheck(themes), IntegrityCheck(themes, atoms), BoardCheck(boardTypes);
    SevenInOrder(u, d, g, c, p, i, b);
    [u, d, g, c, p, i, b]
  }

  lemma SevenInOrder(u: Check, d: Check, g: Check, c: Check, p: Check, i: Check, b: Check)
    requires Consistent(u) && Consistent(d) && Consistent(g) && Consistent(c) && Consistent(p) && Consistent(i) && Consistent(b)
    requires u.name == QuoteUniqueness && d.name == ParticipantDiversity && g.name == GenericStatements
    requires c.name == CausalStatements && p.name == PersonaClarity && i.name == DataIntegrity && b.name == BoardCompleteness
    ensures AllConsistent([u, d, g, c, p, i, b])
    ensures forall j :: 0 <= j < 7 ==> [u, d, g, c, p, i, b][j].name == FixedNames[j]
  {
  }

  /** The checks in the order the full validation runs them. */
  function AllChecks(themes: seq<Theme>, atoms: seq<Atom>, insights: seq<Insight>, boardTypes: seq<Value>): seq<Check>
  {
    EvidenceChecks(themes) + FixedChecks(themes, atoms, insights, boardTypes)
  }

  lemma EvidenceChecksConsistent(themes: seq<Theme>)
    ensures AllConsistent(EvidenceChecks(themes))
  {
    EvidenceChecksAt(themes);
    forall k | 0 <= k < |EvidenceChecks(themes)|
      ensures Consistent(EvidenceChecks(themes)[k])
    {
      var i := k / 2;
      EvidenceCheckShape(themes[i]);
      ThemeDiversityCheckShape(themes[i]);
      assert k == 2 * i || k == 2 * i + 1;
    }
  }

  lemma ConsistentAppend(cs: seq<Check>, ds: seq<Check>)
    requires AllConsistent(cs) && AllConsistent(ds)
    ensures AllConsistent(cs + ds)
  {
    forall k | 0 <= k < |cs + ds|
      ensures Consistent((cs + ds)[k])
    {
      if k >= |cs| {
        assert (cs + ds)[k] == ds[k - |cs|];
      }
    }
  }

  /**
   * Every check the full validation produces is consistent: info exactly
   * when passed, and a score in [0, 1].
   */
  lemma AllChecksConsistent(themes: seq<Theme>, atoms: seq<Atom>, insights: seq<Insight>, boardTypes: seq<Value>)
    ensures AllConsistent(AllChecks(themes, atoms, insights, boardTypes))
  {
    EvidenceChecksConsistent(themes);
    ConsistentAppend(EvidenceChecks(themes), FixedChecks(themes, atoms, insights, boardTypes));
  }

  /** Two checks per theme come first, then the seven fixed checks in a fixed order. */
  lemma AllChecksOrder(themes: seq<Theme>, atoms: seq<Atom>, insights: seq<Insight>, boardTypes: seq<Value>)
    ensures |AllChecks(themes, atoms, insights, boardTypes)| == 2 * |themes| + 7
    ensures forall j :: 0 <= j < 7 ==> AllChecks(themes, atoms, insights, boardTypes)[2 * |themes| + j].name == FixedNames[j]
  {
    PairedLength(themes, EvidenceCheck, ThemeDiversityCheck);
    var ev, fixed := EvidenceChecks(themes), FixedChecks(themes, atoms, insights, boardTypes);
    forall j | 0 <= j < 7
      ensures (ev + fixed)[|ev| + j] == fixed[j]
    {
    }
  }

  /** `run_full_validation`; the clock reading is the `timestamp` parameter. */
  method RunFullValidation(projectSlug: string, timestamp: string, themes: seq<Theme>, atoms: seq<Atom>,
                           insights: seq<Insight>, boardTypes: seq<Value>) returns (report: Report)
    ensures report == GenerateReport(projectSlug, timestamp, AllChecks(themes, atoms, insights, boardTypes))
  {
    var checks := ValidateEvidenceSufficiency(themes);
    var uniqueness := ValidateQuoteUniqueness(themes);
    var diversity := ValidateParticipantDiversity(themes);
    var generic := ValidateGenericStatements(insights);
    var causal := ValidateCausalStatements(themes);
    var persona := ValidatePersonaClarity(themes);
    var integrity := ValidateDataIntegrity(themes, atoms);
    var board := ValidateBoardCompleteness(boardTypes);
    checks := checks + [uniqueness, diversity, generic, causal, persona, integrity, board];
    report := GenerateReport(projectSlug, timestamp, checks);
  }
}
