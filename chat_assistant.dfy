/**
 * The research chat assistant: it merges the caller's context into its own,
 * records each exchange in its conversation history, detects the message's
 * intent from a fixed table of patterns (the first intent with a matching
 * pattern wins) and answers with the responder for that intent.
 *
 * The regular expressions are abstract: `search(p, s)` says whether pattern
 * `p` matches somewhere in `s`, and `capture(k, s)` gives the first group of
 * the k-th theme-name pattern. A response is the `Response` that carries what
 * the reply text interpolates; `render` is `json.dumps` of it. Timestamps are
 * parameters.
 */
module ChatAssistant {
  import opened Wrappers
  import opened Text
  import opened Json
  import opened Seqs

  datatype Role = User | Assistant | System

  datatype ChatMessage = ChatMessage(role: Role, content: string, timestamp: string, context: Option<Dict>)

  // ---------------------------------------------------------------------------
  // Intent detection
  // ---------------------------------------------------------------------------

  datatype Intent =
    | ExplainTheme | SuggestImprovement | AddEvidence | ClarifyMethodology | ValidateQuality | ExportShare
    | GeneralQuestion

  /** The intent table in its declaration order. */
  const IntentOrder: seq<Intent> :=
    [ExplainTheme, SuggestImprovement, AddEvidence, ClarifyMethodology, ValidateQuality, ExportShare]

  /** Pattern `k` (0, 1 or 2) of an intent's list of three. */
  datatype Pattern = Pattern(intent: Intent, k: nat)

  /** The regular expression a pattern stands for. */
  function PatternText(p: Pattern): string
  {
    match p.intent
    case ExplainTheme =>
      if p.k == 0 then @"\bexplain\b.*\btheme\b"
      else if p.k == 1 then @"\bwhat\b.*\btheme\b.*\bmean"
      else @"\bhelp\b.*\bunderstand\b.*\btheme\b"
    case SuggestImprovement =>
      if p.k == 0 then @"\bhow\b.*\bimprove\b"
      else if p.k == 1 then @"\bwhat\b.*\bwrong\b.*\btheme\b"
      else @"\bsuggestions?\b.*\btheme\b"
    case AddEvidence =>
      if p.k == 0 then @"\badd\b.*\bevidence\b"
      else if p.k == 1 then @"\bmore\b.*\bquotes?\b"
      else @"\bfind\b.*\bsupporting\b.*\bquotes?\b"
    case ClarifyMethodology =>
      if p.k == 0 then @"\bhow\b.*\btheme\b.*\bcreat\w+"
      else if p.k == 1 then @"\bmethodology\b"
      else @"\bprocess\b.*\btheme\b.*\bidentification\b"
    case ValidateQuality =>
      if p.k == 0 then @"\bgood\b.*\benough\b"
      else if p.k == 1 then @"\bquality\b.*\bcheck\b"
      else @"\bready\b.*\bpresent\b"
    case ExportShare =>
      if p.k == 0 then @"\bexport\b"
      else if p.k == 1 then @"\bshare\b.*\bresults\b"
      else @"\bpdf\b|\bpowerpoint\b|\bdeck\b"
    case GeneralQuestion => ""
  }

  /** Some pattern of the intent matches the lower-cased message. */
  predicate IntentMatches(intent: Intent, lowered: string, search: (Pattern, string) -> bool)
  {
    search(Pattern(intent, 0), lowered) || search(Pattern(intent, 1), lowered) || search(Pattern(intent, 2), lowered)
  }

  /** The first intent of `order` with a matching pattern, `GeneralQuestion` when none has one. */
  function FirstIntent(order: seq<Intent>, lowered: string, search: (Pattern, string) -> bool): Intent
  {
    if order == [] then GeneralQuestion
    else if IntentMatches(order[0], lowered, search) then order[0]
    else FirstIntent(order[1..], lowered, search)
  }

  /**
   * The detected intent is the first one in table order with a matching
   * pattern; it is `GeneralQuestion` exactly when no pattern matches.
   */
  lemma {:induction false} FirstIntentIsFirst(order: seq<Intent>, lowered: string, search: (Pattern, string) -> bool)
    requires GeneralQuestion !in order
    ensures FirstIntent(order, lowered, search) == GeneralQuestion
      <==> forall j :: 0 <= j < |order| ==> !IntentMatches(order[j], lowered, search)
    ensures FirstIntent(order, lowered, search) != GeneralQuestion ==>
      exists j :: 0 <= j < |order| && order[j] == FirstIntent(order, lowered, search)
        && IntentMatches(order[j], lowered, search)
        && forall i :: 0 <= i < j ==> !IntentMatches(order[i], lowered, search)
  {
    if order != [] && !IntentMatches(order[0], lowered, search) {
      FirstIntentIsFirst(order[1..], lowered, search);
      var r := FirstIntent(order, lowered, search);
      if r != GeneralQuestion {
        var j :| 0 <= j < |order[1..]| && order[1..][j] == r && IntentMatches(order[1..][j], lowered, search)
          && forall i :: 0 <= i < j ==> !IntentMatches(order[1..][i], lowered, search);
        assert order[j + 1] == r;
      }
    }
  }

  /** `_detect_intent`: the intent loop and the pattern loop, returning on the first match. */
  method DetectIntent(message: string, search: (Pattern, string) -> bool) returns (intent: Intent)
    ensures intent == FirstIntent(IntentOrder, Lower(message), search)
  {
    var lowered := Lower(message);
    for i := 0 to |IntentOrder|
      invariant FirstIntent(IntentOrder, lowered, search) == FirstIntent(IntentOrder[i..], lowered, search)
    {
      for k := 0 to 3
        invariant forall m :: 0 <= m < k ==> !search(Pattern(IntentOrder[i], m), lowered)
      {
        if search(Pattern(IntentOrder[i], k), lowered) {
          return IntentOrder[i];
        }
      }
      assert IntentOrder[i..][1..] == IntentOrder[i + 1..];
    }
    return GeneralQuestion;
  }

  // ---------------------------------------------------------------------------
  // Reading the context
  // ---------------------------------------------------------------------------

  /** `v.get(k, default)` on a dictionary value; anything else gives the default. */
  function Get(v: Value, k: string, default: Value): Value
  {
    if v.JObj? && k in v.fields then v.fields[k] else default
  }

  /** A string-valued field, `default` when absent or not a string. */
  function GetStr(v: Value, k: string, default: string): string
  {
    match Get(v, k, JStr(default))
    case JStr(s) => s
    case _ => default
  }

  /** `context.get(key, [])` as a list. */
  function ContextList(context: Dict, key: string): seq<Value>
  {
    Items(Lookup(context, key, JArr([])))
  }

  /** A theme's `name`. */
  function NameOf(theme: Value): string
  {
    GetStr(theme, "name", "")
  }

  // ---------------------------------------------------------------------------
  // Theme names in a message
  // ---------------------------------------------------------------------------

  /** The first theme whose lower-cased name occurs in the lower-cased message. */
  function NamedTheme(themes: seq<Value>, lowered: string): (r: Option<nat>)
    ensures r.Some? ==> r.value < |themes| && Contains(lowered, Lower(NameOf(themes[r.value])))
    ensures r.Some? ==> forall i :: 0 <= i < r.value ==> !Contains(lowered, Lower(NameOf(themes[i])))
    ensures r.None? ==> forall i :: 0 <= i < |themes| ==> !Contains(lowered, Lower(NameOf(themes[i])))
  {
    if themes == [] then None
    else if Contains(lowered, Lower(NameOf(themes[0]))) then Some(0)
    else
      match NamedTheme(themes[1..], lowered)
      case None => None
      case Some(k) => Some(k + 1)
  }

  /** The first of the three name patterns that captures a word. */
  function FirstCapture(lowered: string, capture: (nat, string) -> Option<string>, k: nat): (r: Option<string>)
    requires k <= 3
    ensures r.Some? ==> exists m :: k <= m < 3 && capture(m, lowered) == r
    ensures r.None? <==> forall m :: k <= m < 3 ==> capture(m, lowered).None?
    decreases 3 - k
  {
    if k == 3 then None
    else if capture(k, lowered).Some? then capture(k, lowered)
    else FirstCapture(lowered, capture, k + 1)
  }

  /**
   * `_extract_theme_name`: the name of the first context theme that occurs in
   * the message, otherwise the first pattern capture, otherwise `None`.
   */
  function ExtractThemeName(message: string, context: Dict, capture: (nat, string) -> Option<string>): Option<string>
  {
    var themes := ContextList(context, "themes");
    var lowered := Lower(message);
    match NamedTheme(themes, lowered)
    case Some(k) => Some(NameOf(themes[k]))
    case None => FirstCapture(lowered, capture, 0)
  }

  lemma ThemeNamePreference(message: string, context: Dict, capture: (nat, string) -> Option<string>)
    ensures var themes := ContextList(context, "themes");
      (exists i :: 0 <= i < |themes| && Contains(Lower(message), Lower(NameOf(themes[i])))) ==>
        exists i :: 0 <= i < |themes| && ExtractThemeName(message, context, capture) == Some(NameOf(themes[i]))
          && Contains(Lower(message), Lower(NameOf(themes[i])))
          && forall j :: 0 <= j < i ==> !Contains(Lower(message), Lower(NameOf(themes[j])))
    ensures ExtractThemeName(message, context, capture).None? <==>
      (forall i :: 0 <= i < |ContextList(context, "themes")| ==>
        !Contains(Lower(message), Lower(NameOf(ContextList(context, "themes")[i]))))
      && (forall m :: 0 <= m < 3 ==> capture(m, Lower(message)).None?)
  {
    var themes := ContextList(context, "themes");
    match NamedTheme(themes, Lower(message))
    case Some(k) =>
      var r := ExtractThemeName(message, context, capture);
      assert r == Some(NameOf(themes[k]));
      assert 0 <= k < |themes| && r == Some(NameOf(themes[k]))
        && Contains(Lower(message), Lower(NameOf(themes[k])))
        && forall j :: 0 <= j < k ==> !Contains(Lower(message), Lower(NameOf(themes[j])));
      assert !(forall i :: 0 <= i < |themes| ==> !Contains(Lower(message), Lower(NameOf(themes[i]))));
    case None =>
      var r := ExtractThemeName(message, context, capture);
      assert r == FirstCapture(Lower(message), capture, 0);
      assert forall i :: 0 <= i < |themes| ==> !Contains(Lower(message), Lower(NameOf(themes[i])));
      assert r.None? <==> forall m :: 0 <= m < 3 ==> capture(m, Lower(message)).None?;
  }

  // ---------------------------------------------------------------------------
  // Responses
  // ---------------------------------------------------------------------------

  datatype Suggestion = NeedsEvidence(theme: string, more: int) | TooGeneric(theme: string)

  /** A supporting quote offered for a theme: the atom's first 100 characters and its speaker. */
  datatype Quote = Quote(text: string, speaker: Value)

  datatype Response =
    | NoThemesToExplain
    | ThemeExplanation(name: string, description: Value, quoteCount: nat, participantCount: nat, insight: Value)
    | ThemeListing(names: seq<string>)
    | NoThemesToImprove
    | Improvements(suggestions: seq<Suggestion>)
    | NoAtoms
    | SupportingQuotes(themeName: string, quotes: seq<Quote>)
    | AskWhichTheme
    | MethodologyOverview
    | QualityValidation
    | ExportOptions
    | GeneralHelp

  /** The intent whose responder produces a response. */
  function ResponderOf(r: Response): Intent
  {
    match r
    case NoThemesToExplain | ThemeExplanation(_, _, _, _, _) | ThemeListing(_) => ExplainTheme
    case NoThemesToImprove | Improvements(_) => SuggestImprovement
    case NoAtoms | SupportingQuotes(_, _) | AskWhichTheme => AddEvidence
    case MethodologyOverview => ClarifyMethodology
    case QualityValidation => ValidateQuality
    case ExportOptions => ExportShare
    case GeneralHelp => GeneralQuestion
  }

  /** The distinct speakers of a theme's atoms, `"unknown"` for an atom without one. */
  function Participants(theme: Value): set<Value>
  {
    set a | a in Items(Get(theme, "atoms", JArr([]))) :: Get(a, "speaker", JStr("unknown"))
  }

  /** The first theme whose lower-cased name equals the lower-cased `name`. */
  function ThemeCalled(themes: seq<Value>, name: string): (r: Option<nat>)
    ensures r.Some? ==> r.value < |themes| && Lower(NameOf(themes[r.value])) == Lower(name)
    ensures r.None? ==> forall i :: 0 <= i < |themes| ==> Lower(NameOf(themes[i])) != Lower(name)
  {
    if themes == [] then None
    else if Lower(NameOf(themes[0])) == Lower(name) then Some(0)
    else
      match ThemeCalled(themes[1..], name)
      case None => None
      case Some(k) => Some(k + 1)
  }

  /**
   * `_explain_theme_response`. `None` is the `AttributeError` the source
   * raises when there are themes but no theme name can be extracted (it
   * lower-cases `None`).
   */
  function ExplainThemeResponse(message: string, context: Dict, capture: (nat, string) -> Option<string>): (r: Option<Response>)
    ensures r.Some? ==> ResponderOf(r.value) == ExplainTheme
    ensures r.None? <==> ContextList(context, "themes") != [] && ExtractThemeName(message, context, capture).None?
  {
    var themes := ContextList(context, "themes");
    if themes == [] then Some(NoThemesToExplain)
    else
      match ExtractThemeName(message, context, capture)
      case None => None
      case Some(name) =>
        match ThemeCalled(themes, name)
        case Some(k) =>
          var t := themes[k];
          Some(ThemeExplanation(NameOf(t), Get(t, "description", JStr("a pattern in user behavior")),
            |Items(Get(t, "evidence", JArr([])))|, |Participants(t)|,
            Get(t, "insight", JStr("This theme reveals something important about user needs or behaviors"))))
        case None => Some(ThemeListing(Map(themes, NameOf)))
  }

  /** The number of evidence items of a theme. */
  function EvidenceCount(theme: Value): nat
  {
    |Items(Get(theme, "evidence", JArr([])))|
  }

  /** The lower-cased description contains one of the three generic phrases. */
  predicate IsGeneric(theme: Value)
  {
    var d := Lower(GetStr(theme, "description", ""));
    Contains(d, "users want") || Contains(d, "people need") || Contains(d, "everyone thinks")
  }

  /** The suggestions for one theme: more evidence first, then genericity. */
  function ThemeSuggestions(theme: Value): seq<Suggestion>
  {
    (if EvidenceCount(theme) < 2 then [NeedsEvidence(NameOf(theme), 2 - EvidenceCount(theme))] else [])
    + (if IsGeneric(theme) then [TooGeneric(NameOf(theme))] else [])
  }

  /** The suggestions for all themes, theme by theme. */
  function Suggestions(themes: seq<Value>): seq<Suggestion>
  {
    Flatten(themes, ThemeSuggestions)
  }

  lemma ThemeSuggestionsMembers(t: Value)
    ensures forall s :: s in ThemeSuggestions(t) <==>
      (s == NeedsEvidence(NameOf(t), 2 - EvidenceCount(t)) && EvidenceCount(t) < 2)
      || (s == TooGeneric(NameOf(t)) && IsGeneric(t))
  {
  }

  /**
   * A theme with n < 2 evidence items gets exactly the suggestion to add 2 - n
   * quotes, a theme with a generic description the suggestion to be specific,
   * and nothing else is suggested.
   */
  lemma SuggestionsMembers(themes: seq<Value>)
    ensures forall s :: s in Suggestions(themes) <==>
      exists t :: t in themes
        && ((s == NeedsEvidence(NameOf(t), 2 - EvidenceCount(t)) && EvidenceCount(t) < 2)
            || (s == TooGeneric(NameOf(t)) && IsGeneric(t)))
  {
    forall s | s in Suggestions(themes)
      ensures exists t :: t in themes && s in ThemeSuggestions(t)
    {
      FlattenMembers(themes, ThemeSuggestions, s);
    }
    forall s, t | t in themes && s in ThemeSuggestions(t)
      ensures s in Suggestions(themes)
    {
      var i :| 0 <= i < |themes| && themes[i] == t;
      FlattenContains(themes, ThemeSuggestions, i, s);
    }
    forall t | t in themes
    {
      ThemeSuggestionsMembers(t);
    }
  }

  /** Every evidence suggestion asks for one or two more quotes. */
  lemma SuggestionsAskForFewQuotes(themes: seq<Value>)
    ensures forall s :: s in Suggestions(themes) && s.NeedsEvidence? ==> 1 <= s.more <= 2
  {
    SuggestionsMembers(themes);
  }

  /** The body of the loop of `_suggest_improvement_response`, for one theme. */
  method SuggestFor(theme: Value) returns (suggestions: seq<Suggestion>)
    ensures suggestions == ThemeSuggestions(theme)
  {
    suggestions := [];
    var count := EvidenceCount(theme);
    if count < 2 {
      suggestions := suggestions + [NeedsEvidence(NameOf(theme), 2 - count)];
    }
    if IsGeneric(theme) {
      suggestions := suggestions + [TooGeneric(NameOf(theme))];
    }
  }

  /** The loop of `_suggest_improvement_response`. */
  method CollectSuggestions(themes: seq<Value>) returns (suggestions: seq<Suggestion>)
    ensures suggestions == Suggestions(themes)
  {
    suggestions := [];
    for i := 0 to |themes|
      invariant suggestions == Flatten(themes[..i], ThemeSuggestions)
    {
      FlattenSnoc(themes, ThemeSuggestions, i);
      var more := SuggestFor(themes[i]);
      suggestions := suggestions + more;
    }
    assert themes[..|themes|] == themes;
  }

  /** The atom mentions one of the keywords in its lower-cased text. */
  predicate Mentions(atom: Value, keywords: seq<string>)
  {
    exists k :: 0 <= k < |keywords| && Contains(Lower(GetStr(atom, "text", "")), keywords[k])
  }

  function QuoteOf(atom: Value): Quote
  {
    Quote(Take(GetStr(atom, "text", ""), 100), Get(atom, "speaker", JStr("Unknown")))
  }

  /** The first three atoms that mention a word of the theme name. */
  function RelevantQuotes(atoms: seq<Value>, themeName: string): seq<Quote>
  {
    var keywords := Words(Lower(themeName));
    Map(FirstN(Filter(atoms, a => Mentions(a, keywords)), 3), QuoteOf)
  }

  /** At most three quotes are offered, each from an atom that mentions a word of the theme name. */
  lemma RelevantQuotesShape(atoms: seq<Value>, themeName: string)
    ensures |RelevantQuotes(atoms, themeName)| <= 3
    ensures forall q :: q in RelevantQuotes(atoms, themeName) ==>
      exists a :: a in atoms && Mentions(a, Words(Lower(themeName))) && q == QuoteOf(a)
  {
    var keywords := Words(Lower(themeName));
    var p := (a: Value) => Mentions(a, keywords);
    var chosen := FirstN(Filter(atoms, p), 3);
    FilterMembers(atoms, p);
    MapMembers(chosen, QuoteOf);
    forall a | a in chosen
      ensures a in Filter(atoms, p)
    {
      var i :| 0 <= i < |chosen| && chosen[i] == a;
      assert Filter(atoms, p)[i] == a;
    }
  }

  /** `_add_evidence_response`; an empty extracted name counts as none, as Python's truthiness has it. */
  function AddEvidenceResponse(message: string, context: Dict, capture: (nat, string) -> Option<string>): (r: Response)
    ensures ResponderOf(r) == AddEvidence
  {
    var atoms := ContextList(context, "atoms");
    if atoms == [] then NoAtoms
    else
      match ExtractThemeName(message, context, capture)
      case Some(name) =>
        if name != "" then SupportingQuotes(name, RelevantQuotes(atoms, name)) else AskWhichTheme
      case None => AskWhichTheme
  }

  /** `_suggest_improvement_response`. */
  function SuggestImprovementResponse(context: Dict): (r: Response)
    ensures ResponderOf(r) == SuggestImprovement
  {
    var themes := ContextList(context, "themes");
    if themes == [] then NoThemesToImprove else Improvements(Suggestions(themes))
  }

  /** `_generate_response`: one responder per intent; `None` is the explain responder's error. */
  function GenerateResponse(intent: Intent, message: string, context: Dict,
                            capture: (nat, string) -> Option<string>): Option<Response>
  {
    match intent
    case ExplainTheme => ExplainThemeResponse(message, context, capture)
    case SuggestImprovement => Some(SuggestImprovementResponse(context))
    case AddEvidence => Some(AddEvidenceResponse(message, context, capture))
    case ClarifyMethodology => Some(MethodologyOverview)
    case ValidateQuality => Some(QualityValidation)
    case ExportShare => Some(ExportOptions)
    case GeneralQuestion => Some(GeneralHelp)
  }

  /**
   * Dispatch is exact: the response comes from the responder of the detected
   * intent, and only the explain responder can fail.
   */
  lemma GenerateResponseDispatch(intent: Intent, message: string, context: Dict,
                                 capture: (nat, string) -> Option<string>)
    ensures GenerateResponse(intent, message, context, capture).Some? ==>
      ResponderOf(GenerateResponse(intent, message, context, capture).value) == intent
    ensures intent != ExplainTheme ==> GenerateResponse(intent, message, context, capture).Some?
    ensures GenerateResponse(ExplainTheme, message, context, capture).None? <==>
      ContextList(context, "themes") != [] && ExtractThemeName(message, context, capture).None?
  {
  }

  // ---------------------------------------------------------------------------
  // Conversation summary
  // ---------------------------------------------------------------------------

  datatype Topic = Themes | Evidence | Quality | Methodology | Export

  /** The lower-cased content raises the topic. */
  predicate Raises(content: string, topic: Topic)
  {
    var c := Lower(content);
    match topic
    case Themes => Contains(c, "theme")
    case Evidence => Contains(c, "evidence")
    case Quality => Contains(c, "quality")
    case Methodology => Contains(c, "methodology")
    case Export => Contains(c, "export") || Contains(c, "share")
  }

  /** The topics one message raises. */
  function MessageTopics(content: string): (r: set<Topic>)
    ensures forall t :: t in r <==> Raises(content, t)
  {
    (if Raises(content, Themes) then {Themes} else {})
    + (if Raises(content, Evidence) then {Evidence} else {})
    + (if Raises(content, Quality) then {Quality} else {})
    + (if Raises(content, Methodology) then {Methodology} else {})
    + (if Raises(content, Export) then {Export} else {})
  }

  /** The topics the history raises; the source's `list(set(...))` has no fixed order, so a set. */
  function TopicsOf(history: seq<ChatMessage>): set<Topic>
  {
    if history == [] then {} else TopicsOf(history[..|history| - 1]) + MessageTopics(history[|history| - 1].content)
  }

  /** A topic is listed exactly when some message raises it. */
  lemma {:induction false} TopicsOfMembers(history: seq<ChatMessage>)
    ensures forall t :: t in TopicsOf(history) <==> exists m :: m in history && Raises(m.content, t)
  {
    if history != [] {
      var n := |history| - 1;
      TopicsOfMembers(history[..n]);
      assert history == history[..n] + [history[n]];
    }
  }

  lemma TopicsOfSnoc(history: seq<ChatMessage>, i: nat)
    requires i < |history|
    ensures TopicsOf(history[..i + 1]) == TopicsOf(history[..i]) + MessageTopics(history[i].content)
  {
    assert history[..i + 1][..i] == history[..i];
  }

  /** The body of the topic loop: one membership test per topic. */
  method AddMessageTopics(topics: set<Topic>, content: string) returns (r: set<Topic>)
    ensures r == topics + MessageTopics(content)
  {
    r := topics;
    if Raises(content, Themes) {
      r := r + {Themes};
    }
    if Raises(content, Evidence) {
      r := r + {Evidence};
    }
    if Raises(content, Quality) {
      r := r + {Quality};
    }
    if Raises(content, Methodology) {
      r := r + {Methodology};
    }
    if Raises(content, Export) {
      r := r + {Export};
    }
  }

  /** `_extract_topics`. */
  method ExtractTopics(history: seq<ChatMessage>) returns (topics: set<Topic>)
    ensures topics == TopicsOf(history)
  {
    topics := {};
    for i := 0 to |history|
      invariant topics == TopicsOf(history[..i])
    {
      TopicsOfSnoc(history, i);
      topics := AddMessageTopics(topics, history[i].content);
    }
    assert history[..|history|] == history;
  }

  predicate IsUser(m: ChatMessage) { m.role == User }
  predicate IsAssistant(m: ChatMessage) { m.role == Assistant }

  /** No message is both a user and an assistant message. */
  lemma {:induction false} RoleCounts(history: seq<ChatMessage>)
    ensures |Filter(history, IsUser)| + |Filter(history, IsAssistant)| <= |history|
  {
    if history != [] {
      RoleCounts(history[..|history| - 1]);
    }
  }

  datatype Summary = Summary(totalMessages: nat, userMessages: nat, assistantMessages: nat,
                             lastInteraction: Option<string>, topicsDiscussed: set<Topic>)

  /** `get_conversation_summary`. */
  function SummaryOf(history: seq<ChatMessage>): (s: Summary)
    ensures s.userMessages + s.assistantMessages <= s.totalMessages == |history|
    ensures s.lastInteraction.None? <==> history == []
  {
    RoleCounts(history);
    Summary(|history|, |Filter(history, IsUser)|, |Filter(history, IsAssistant)|,
      if history == [] then None else Some(history[|history| - 1].timestamp),
      TopicsOf(history))
  }

  /** One exchange adds one user and one assistant message, and its timestamp becomes the last interaction. */
  lemma SummaryAfterExchange(history: seq<ChatMessage>, user: ChatMessage, reply: ChatMessage)
    requires user.role == User && reply.role == Assistant
    ensures SummaryOf(history + [user, reply]).totalMessages == SummaryOf(history).totalMessages + 2
    ensures SummaryOf(history + [user, reply]).userMessages == SummaryOf(history).userMessages + 1
    ensures SummaryOf(history + [user, reply]).assistantMessages == SummaryOf(history).assistantMessages + 1
    ensures SummaryOf(history + [user, reply]).lastInteraction == Some(reply.timestamp)
  {
    var h := history + [user, reply];
    FilterAppend(history, [user, reply], IsUser);
    FilterAppend(history, [user, reply], IsAssistant);
    assert [user, reply][..1] == [user];
  }

  // ---------------------------------------------------------------------------
  // The assistant
  // ---------------------------------------------------------------------------

  /** The context a new assistant starts from. */
  function InitialContext(): Dict
  {
    map["current_stage" := JStr("initial"), "project_data" := JObj(map[]),
        "user_goals" := JArr([]), "pending_questions" := JArr([])]
  }

  class Assistant {
    const projectSlug: string
    var history: seq<ChatMessage>
    var context: Dict

    /** A new assistant with the stored history (reading it is not modelled). */
    constructor(projectSlug: string, stored: seq<ChatMessage>)
      ensures this.projectSlug == projectSlug && history == stored && context == InitialContext()
    {
      this.projectSlug := projectSlug;
      history := stored;
      context := InitialContext();
    }

    /**
     * `process_message`: the caller's context is merged over the assistant's,
     * the user message is recorded, and on success exactly one assistant
     * message carrying the rendered response follows it. When the explain
     * responder fails, the user message and the merged context remain.
     */
    method ProcessMessage(message: string, currentContext: Dict, sentAt: string, repliedAt: string,
                          search: (Pattern, string) -> bool, capture: (nat, string) -> Option<string>,
                          render: Response -> string)
      returns (response: Option<Response>)
      modifies this
      ensures context == old(context) + currentContext
      ensures response == GenerateResponse(FirstIntent(IntentOrder, Lower(message), search), message, context, capture)
      ensures response.Some? ==> history == old(history) + [ChatMessage(User, message, sentAt, Some(currentContext)),
                                                             ChatMessage(Assistant, render(response.value), repliedAt, None)]
      ensures response.None? ==> history == old(history) + [ChatMessage(User, message, sentAt, Some(currentContext))]
    {
      context := context + currentContext;
      history := history + [ChatMessage(User, message, sentAt, Some(currentContext))];
      var intent := DetectIntent(message, search);
      response := GenerateResponse(intent, message, context, capture);
      if response.Some? {
        history := history + [ChatMessage(Assistant, render(response.value), repliedAt, None)];
      }
    }

    /** `get_conversation_summary`, with the topics collected by the loop. */
    method GetConversationSummary() returns (summary: Summary)
      ensures summary == SummaryOf(history)
    {
      var topics := ExtractTopics(history);
      summary := Summary(|history|, |Filter(history, IsUser)|, |Filter(history, IsAssistant)|,
        if history == [] then None else Some(history[|history| - 1].timestamp), topics);
    }
  }
}
