/**
 * Repair of free-text model output before it is parsed as JSON:
 * removal of Markdown code fences (the fenced code blocks of section 4.5 of
 * CommonMark) and of the trailing commas that sections 4 and 5 of RFC 8259 forbid.
 */
module Repair {
  import opened Text

  // ---------------------------------------------------------------------------
  // fix_json_syntax: re.sub(r',([\s]*[}\]])', r'\1', s)
  // ---------------------------------------------------------------------------

  predicate IsCloser(c: char)
  {
    c == '}' || c == ']'
  }

  /** The first index at or after `j` that does not hold whitespace (`|s|` if none). */
  function NextNonSpace(s: string, j: nat): (k: nat)
    requires j <= |s|
    ensures j <= k <= |s|
    ensures forall m :: j <= m < k ==> IsSpace(s[m])
    ensures k < |s| ==> !IsSpace(s[k])
    decreases |s| - j
  {
    if j == |s| || !IsSpace(s[j]) then j else NextNonSpace(s, j + 1)
  }

  /** The comma at `i` is followed, after optional whitespace, by `}` or `]`. */
  predicate Dangling(s: string, i: nat)
    requires i < |s|
  {
    s[i] == ',' && NextNonSpace(s, i + 1) < |s| && IsCloser(s[NextNonSpace(s, i + 1)])
  }

  /**
   * The substitution as `re.sub` performs it: scan left to right; where the
   * pattern matches at `i`, emit the captured whitespace and bracket and resume
   * after the match; elsewhere copy one character.
   */
  function Substitute(s: string, i: nat): string
    requires i <= |s|
    decreases |s| - i
  {
    if i == |s| then []
    else if Dangling(s, i) then
      var k := NextNonSpace(s, i + 1);
      s[i + 1..k + 1] + Substitute(s, k + 1)
    else [s[i]] + Substitute(s, i + 1)
  }

  function FixJsonSyntax(raw: string): string
  {
    Substitute(raw, 0)
  }

  /** Reference definition: keep every character except the dangling commas. */
  function WithoutDanglingCommas(s: string, i: nat): (r: string)
    requires i <= |s|
    ensures |r| <= |s| - i
    decreases |s| - i
  {
    if i == |s| then []
    else (if Dangling(s, i) then [] else [s[i]]) + WithoutDanglingCommas(s, i + 1)
  }

  /** Characters that are not commas are copied one by one by the reference definition. */
  lemma {:induction false} NoCommaRun(s: string, m: nat, k: nat)
    requires m <= k + 1 <= |s|
    requires forall p :: m <= p <= k ==> s[p] != ','
    ensures WithoutDanglingCommas(s, m) == s[m..k + 1] + WithoutDanglingCommas(s, k + 1)
    decreases k + 1 - m
  {
    if m <= k {
      NoCommaRun(s, m + 1, k);
      var rest := WithoutDanglingCommas(s, k + 1);
      assert s[m] != ',';
      assert WithoutDanglingCommas(s, m) == [s[m]] + WithoutDanglingCommas(s, m + 1);
      assert s[m..k + 1] == [s[m]] + s[m + 1..k + 1];
      assert [s[m]] + (s[m + 1..k + 1] + rest) == ([s[m]] + s[m + 1..k + 1]) + rest;
    }
  }

  /** Past a dangling comma, both definitions go on from the end of the match with the whitespace and bracket kept. */
  lemma DanglingStep(s: string, i: nat)
    requires i < |s| && Dangling(s, i)
    requires Substitute(s, NextNonSpace(s, i + 1) + 1) == WithoutDanglingCommas(s, NextNonSpace(s, i + 1) + 1)
    ensures Substitute(s, i) == WithoutDanglingCommas(s, i)
  {
    var k := NextNonSpace(s, i + 1);
    NoCommaRun(s, i + 1, k);
    assert WithoutDanglingCommas(s, i) == [] + WithoutDanglingCommas(s, i + 1);
  }

  lemma {:induction false} SubstituteIsFilter(s: string, i: nat)
    requires i <= |s|
    ensures Substitute(s, i) == WithoutDanglingCommas(s, i)
    decreases |s| - i
  {
    if i < |s| {
      if Dangling(s, i) {
        var k := NextNonSpace(s, i + 1);
        SubstituteIsFilter(s, k + 1);
        DanglingStep(s, i);
      } else {
        SubstituteIsFilter(s, i + 1);
      }
    }
  }

  /**
   * fix_json_syntax deletes exactly the commas that are followed, after
   * optional whitespace, by a closing brace or bracket, and keeps every other
   * character in order.
   */
  lemma FixJsonSyntaxDeletesDanglingCommas(raw: string)
    ensures FixJsonSyntax(raw) == WithoutDanglingCommas(raw, 0)
    ensures |FixJsonSyntax(raw)| <= |raw|
  {
    SubstituteIsFilter(raw, 0);
  }

  /** A single pass is not idempotent: ",,]" becomes ",]" and then "]". */
  lemma FixJsonSyntaxNotIdempotent()
    ensures FixJsonSyntax(",,]") == ",]"
    ensures FixJsonSyntax(",]") == "]"
  {
    var s := ",,]";
    assert !Dangling(s, 0) by { assert NextNonSpace(s, 1) == 1; }
    assert Dangling(s, 1) by { assert NextNonSpace(s, 2) == 2; }
    assert Substitute(s, 3) == [];
    assert Substitute(s, 1) == s[2..3];
    var t := ",]";
    assert Dangling(t, 0) by { assert NextNonSpace(t, 1) == 1; }
    assert Substitute(t, 2) == [];
  }

  // ---------------------------------------------------------------------------
  // Fence stripping: re.sub(r'^```(?:json)?', '', raw, flags=re.M) followed by
  // re.sub(r'```$', '', raw, flags=re.M); the one-pass form
  // re.sub(r'^```(?:json)?|```$', '', raw, flags=re.M) removes the same text,
  // because neither alternative can match across a line break.
  // ---------------------------------------------------------------------------

  /** One line: drop a leading "```json" (or else "```"), then a trailing "```". */
  function StripFenceLine(line: string): (r: string)
    ensures |r| <= |line|
    ensures forall c :: c in r ==> c in line
  {
    var a := if StartsWith(line, "```json") then 7 else if StartsWith(line, "```") then 3 else 0;
    var rest := line[a..];
    if EndsWith(rest, "```") then line[a..|line| - 3] else rest
  }

  function MapLines(lines: seq<string>): (r: seq<string>)
    ensures |r| == |lines|
    ensures forall i :: 0 <= i < |lines| ==> r[i] == StripFenceLine(lines[i])
  {
    if lines == [] then [] else [StripFenceLine(lines[0])] + MapLines(lines[1..])
  }

  function StripFences(raw: string): string
  {
    Join(MapLines(Split(raw, '\n')), '\n')
  }

  lemma {:induction false} SplitJoin(parts: seq<string>, sep: char)
    requires |parts| >= 1
    requires forall k :: 0 <= k < |parts| ==> sep !in parts[k]
    ensures Split(Join(parts, sep), sep) == parts
    decreases |parts|, |parts[0]|
  {
    if |parts| == 1 {
      SplitNoSep(parts[0], sep);
    } else if parts[0] == [] {
      SplitJoin(parts[1..], sep);
      var j := Join(parts, sep);
      assert j == [sep] + Join(parts[1..], sep);
      assert j[1..] == Join(parts[1..], sep);
      assert parts == [""] + parts[1..];
    } else {
      var tail := [parts[0][1..]] + parts[1..];
      assert tail[1..] == parts[1..];
      SplitJoin(tail, sep);
      var j := Join(parts, sep);
      assert j == [parts[0][0]] + Join(tail, sep);
      assert j[1..] == Join(tail, sep);
      assert parts[0] == [parts[0][0]] + parts[0][1..];
    }
  }

  lemma {:induction false} SplitNoSep(s: string, sep: char)
    requires sep !in s
    ensures Split(s, sep) == [s]
  {
    if s != [] {
      SplitNoSep(s[1..], sep);
      assert s == [s[0]] + s[1..];
    }
  }

  /**
   * Fence stripping keeps the line structure: the result has as many lines as
   * the input and line i of the result is line i of the input with its fences
   * removed.
   */
  lemma StripFencesPerLine(raw: string)
    ensures Split(StripFences(raw), '\n') == MapLines(Split(raw, '\n'))
  {
    SplitJoin(MapLines(Split(raw, '\n')), '\n');
  }

  /** The cleanup before json.loads in the atomiser and the graph builder. */
  function CleanForParse(text: string): string
  {
    FixJsonSyntax(Strip(StripFences(Strip(text))))
  }

  /** The cleanup before json.loads in annotate_atom (no comma repair). */
  function CleanForParseNoFix(text: string): string
  {
    Strip(StripFences(Strip(text)))
  }

  // ---------------------------------------------------------------------------
  // The startswith/endswith stripping of generate_initial_themes and enhance_graph.
  // ---------------------------------------------------------------------------

  function StripJsonFence(text: string): (r: string)
    ensures !StartsWith(Strip(text), "```json") && !EndsWith(Strip(text), "```") ==> r == Strip(text)
    ensures StartsWith(Strip(text), "```json") && !EndsWith(Strip(Strip(text)[7..]), "```") ==>
              r == Strip(Strip(text)[7..])
    ensures !StartsWith(Strip(text), "```json") && EndsWith(Strip(text), "```") ==>
              r == Strip(Strip(text)[..|Strip(text)| - 3])
    ensures |r| <= |text|
  {
    var s0 := Strip(text);
    var s1 := if StartsWith(s0, "```json") then Strip(s0[7..]) else s0;
    if EndsWith(s1, "```") then Strip(s1[..|s1| - 3]) else s1
  }

  /**
   * A reply fenced as a json code block gives back exactly its payload, when
   * the payload neither begins nor ends with whitespace.
   */
  lemma StripJsonFenceUnwraps(p: string)
    requires p != [] && !IsSpace(p[0]) && !IsSpace(p[|p| - 1])
    ensures StripJsonFence("```json\n" + p + "\n```") == p
  {
    var text := "```json\n" + p + "\n```";
    assert Strip(text) == text by {
      assert text[0] == '`' && text[|text| - 1] == '`';
      assert LStrip(text) == text;
      assert RStrip(text) == text;
    }
    assert text[..7] == "```json";
    var a := text[7..];
    var s1 := p + "\n```";
    assert a == "\n" + s1;
    assert LStrip(a) == s1 by {
      assert a[1..] == s1;
      assert s1[0] == p[0];
    }
    assert RStrip(s1) == s1 by {
      assert s1[|s1| - 1] == '`';
    }
    assert s1[|s1| - 3..] == "```";
    var b := s1[..|s1| - 3];
    assert b == p + "\n";
    assert LStrip(b) == b by {
      assert b[0] == p[0];
    }
    assert RStrip(b) == RStrip(p) by {
      assert b[..|b| - 1] == p;
    }
    assert RStrip(p) == p;
  }

  /** Only a leading "```json" is removed: a bare leading "```" is kept. */
  lemma StripJsonFenceKeepsBareFence()
    ensures StripJsonFence("```[]") == "```[]"
  {
    var s := "```[]";
    assert Strip(s) == s by {
      assert LStrip(s) == s;
      assert RStrip(s) == s;
    }
    assert !StartsWith(s, "```json");
    assert s[|s| - 3..] == "`[]";
  }
}
