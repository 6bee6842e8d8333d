/**
 * The atomiser and annotator routes: a cleaned transcript is cut into
 * "atoms" (short evidence quotes) by the model, long transcripts are packed
 * line by line into chunks first, every atom is then annotated with insights
 * and tags, and both results are cached in the project's DropZone folders.
 */
module Atoms {
  import opened Wrappers
  import opened Text
  import opened Json
  import opened Llm
  import opened Repair
  import opened Store
  import SharedUtils

  /**
   * Where `str(uuid4())` is called: `mint(c, i)` is the id offered to the i-th
   * atom of the reply to model call c (the error atom uses the first call
   * index no attempt used).
   */
  type IdSource = (nat, nat) -> string

  const ChunkSize: nat := 8000
  const ChunkThreshold: nat := 15000
  const RetryAttempts: nat := 3
  const ShrunkLength: nat := 10000

  // ---------------------------------------------------------------------------
  // Line packing (chunk_and_atomise, first half)
  // ---------------------------------------------------------------------------

  /** The chunk buffer holding `group`: every line followed by a newline. */
  function Lined(group: seq<string>): (r: string)
    ensures |r| >= |group|
    ensures group != [] ==> r[|r| - 1] == '\n'
  {
    if group == [] then "" else Lined(group[..|group| - 1]) + group[|group| - 1] + "\n"
  }

  /**
   * The packing loop as a left fold over the lines: the finished groups and
   * the group being filled. A line goes into a new group when the buffer is
   * non-empty and the buffer plus the line exceed `size`.
   */
  function Pack(lines: seq<string>, size: nat): (seq<seq<string>>, seq<string>)
  {
    if lines == [] then ([], [])
    else
      var (done, cur) := Pack(lines[..|lines| - 1], size);
      var line := lines[|lines| - 1];
      if |Lined(cur)| + |line| > size && cur != [] then (done + [cur], [line])
      else (done, cur + [line])
  }

  /** The stripped text of every finished group, in order. */
  function StripEach(groups: seq<seq<string>>): (r: seq<string>)
    ensures |r| == |groups|
    ensures forall k :: 0 <= k < |groups| ==> r[k] == Strip(Lined(groups[k]))
  {
    if groups == [] then [] else StripEach(groups[..|groups| - 1]) + [Strip(Lined(groups[|groups| - 1]))]
  }

  /** The chunks: every finished group, and the last group unless it is blank. */
  function Chunks(text: string, size: nat): seq<string>
  {
    var (done, cur) := Pack(Split(text, '\n'), size);
    StripEach(done) + (if Strip(Lined(cur)) != [] then [Strip(Lined(cur))] else [])
  }

  function Flatten(groups: seq<seq<string>>): seq<string>
  {
    if groups == [] then [] else Flatten(groups[..|groups| - 1]) + groups[|groups| - 1]
  }

  lemma LinedSnoc(group: seq<string>, line: string)
    ensures Lined(group + [line]) == Lined(group) + line + "\n"
  {
    assert (group + [line])[..|group|] == group;
  }

  lemma LinedOne(line: string)
    ensures Lined([line]) == line + "\n"
  {
    assert [line][..0] == [];
  }

  lemma FlattenSnoc(groups: seq<seq<string>>, g: seq<string>)
    ensures Flatten(groups + [g]) == Flatten(groups) + g
  {
    assert (groups + [g])[..|groups|] == groups;
  }

  lemma StripEachSnoc(groups: seq<seq<string>>, g: seq<string>)
    ensures StripEach(groups + [g]) == StripEach(groups) + [Strip(Lined(g))]
  {
    assert (groups + [g])[..|groups|] == groups;
  }

  /** One more line of the input is one more step of the packing fold. */
  lemma PackPrefixStep(lines: seq<string>, size: nat, i: nat)
    requires i < |lines|
    ensures Pack(lines[..i + 1], size) ==
      if |Lined(Pack(lines[..i], size).1)| + |lines[i]| > size && Pack(lines[..i], size).1 != []
      then (Pack(lines[..i], size).0 + [Pack(lines[..i], size).1], [lines[i]])
      else (Pack(lines[..i], size).0, Pack(lines[..i], size).1 + [lines[i]])
  {
    assert lines[..i + 1][..i] == lines[..i];
  }

  /** Packing never splits or reorders lines: the groups, read in order, are the lines. */
  lemma {:induction false} PackKeepsLines(lines: seq<string>, size: nat)
    ensures Flatten(Pack(lines, size).0) + Pack(lines, size).1 == lines
    ensures lines != [] ==> Pack(lines, size).1 != []
  {
    if lines != [] {
      var prefix := lines[..|lines| - 1];
      var line := lines[|lines| - 1];
      PackKeepsLines(prefix, size);
      var p := Pack(prefix, size);
      var done, cur := p.0, p.1;
      assert Flatten(done) + cur == prefix;
      assert prefix + [line] == lines;
      if |Lined(cur)| + |line| > size && cur != [] {
        assert Pack(lines, size) == (done + [cur], [line]);
        FlattenSnoc(done, cur);
        assert Flatten(done + [cur]) + [line] == (Flatten(done) + cur) + [line];
      } else {
        assert Pack(lines, size) == (done, cur + [line]);
        assert Flatten(done) + (cur + [line]) == (Flatten(done) + cur) + [line];
      }
    }
  }

  /**
   * No finished group is empty, and every group either holds one line or its
   * buffer is at most `size + 1` characters long (the last newline included).
   */
  lemma {:induction false} PackBound(lines: seq<string>, size: nat)
    ensures forall g :: g in Pack(lines, size).0 ==> g != [] && (|g| == 1 || |Lined(g)| <= size + 1)
    ensures |Pack(lines, size).1| <= 1 || |Lined(Pack(lines, size).1)| <= size + 1
  {
    if lines != [] {
      var prefix := lines[..|lines| - 1];
      var line := lines[|lines| - 1];
      PackBound(prefix, size);
      var p := Pack(prefix, size);
      var done, cur := p.0, p.1;
      if |Lined(cur)| + |line| > size && cur != [] {
        assert Pack(lines, size) == (done + [cur], [line]);
      } else {
        assert Pack(lines, size) == (done, cur + [line]);
        LinedSnoc(cur, line);
      }
    }
  }

  /** A group of several lines whose buffer fits in `size + 1` strips to at most `size`. */
  lemma GroupChunkFits(g: seq<string>, size: nat)
    requires g != []
    requires |g| == 1 || |Lined(g)| <= size + 1
    ensures |Strip(Lined(g))| <= size || (|g| == 1 && |g[0]| > size)
  {
    StripDropsTrailingSpace(Lined(g));
    if |g| == 1 {
      assert g[..0] == [];
      assert Lined(g) == g[0] + "\n";
    }
  }

  /**
   * The chunker's guarantees: lines are kept whole and in order, and every
   * chunk is at most `size` characters unless its group is one line longer
   * than `size`. Only the last group may be dropped, and only when blank.
   */
  lemma ChunksKeepLines(text: string, size: nat)
    ensures var (done, cur) := Pack(Split(text, '\n'), size);
      && Flatten(done) + cur == Split(text, '\n')
      && cur != []
      && (forall g :: g in done ==> g != [] && (|Strip(Lined(g))| <= size || (|g| == 1 && |g[0]| > size)))
      && (|Strip(Lined(cur))| <= size || (|cur| == 1 && |cur[0]| > size))
      && Chunks(text, size)[..|done|] == StripEach(done)
      && |Chunks(text, size)| == |done| + (if Strip(Lined(cur)) == [] then 0 else 1)
  {
    var lines := Split(text, '\n');
    PackKeepsLines(lines, size);
    PackBound(lines, size);
    var (done, cur) := Pack(lines, size);
    forall g | g in done
      ensures g != [] && (|Strip(Lined(g))| <= size || (|g| == 1 && |g[0]| > size))
    {
      GroupChunkFits(g, size);
    }
    GroupChunkFits(cur, size);
  }

  /**
   * The first half of `chunk_and_atomise`: grow a buffer line by line and
   * flush it (stripped) when the next line would overflow it.
   */
  method SplitIntoChunks(text: string, size: nat) returns (chunks: seq<string>)
    ensures chunks == Chunks(text, size)
  {
    var lines := Split(text, '\n');
    chunks := [];
    var current := "";
    ghost var done: seq<seq<string>> := [];
    ghost var cur: seq<string> := [];
    for i := 0 to |lines|
      invariant done == Pack(lines[..i], size).0 && cur == Pack(lines[..i], size).1
      invariant current == Lined(cur)
      invariant chunks == StripEach(done)
    {
      var line := lines[i];
      PackLoopStep(lines, size, i, done, cur, current);
      if |current + line| > size && current != "" {
        chunks := chunks + [Strip(current)];
        done, cur := done + [cur], [line];
        current := line + "\n";
      } else {
        current := current + line + "\n";
        cur := cur + [line];
      }
    }
    assert lines[..|lines|] == lines;
    if Strip(current) != "" {
      chunks := chunks + [Strip(current)];
    }
  }

  /** One turn of the packing loop is one step of the packing fold. */
  lemma PackLoopStep(lines: seq<string>, size: nat, i: nat, done: seq<seq<string>>, cur: seq<string>, current: string)
    requires i < |lines|
    requires done == Pack(lines[..i], size).0 && cur == Pack(lines[..i], size).1 && current == Lined(cur)
    ensures |current + lines[i]| > size && current != "" ==>
      && Pack(lines[..i + 1], size).0 == done + [cur] && Pack(lines[..i + 1], size).1 == [lines[i]]
      && Lined([lines[i]]) == lines[i] + "\n" && StripEach(done + [cur]) == StripEach(done) + [Strip(current)]
    ensures !(|current + lines[i]| > size && current != "") ==>
      && Pack(lines[..i + 1], size).0 == done && Pack(lines[..i + 1], size).1 == cur + [lines[i]]
      && Lined(cur + [lines[i]]) == current + lines[i] + "\n"
  {
    PackPrefixStep(lines, size, i);
    assert current == "" <==> cur == [];
    if |current + lines[i]| > size && current != "" {
      StripEachSnoc(done, cur);
      LinedOne(lines[i]);
    } else {
      LinedSnoc(cur, lines[i]);
    }
  }

  /** `atom.setdefault("id", <fresh id>)` then `atom["source_file"] = tag`. */
  function Stamp(atom: Dict, tag: string, id: string): Dict
  {
    SetDefault(atom, "id", JStr(id))["source_file" := JStr(tag)]
  }

  /**
   * A stamped atom keeps every field, gains an id only when it had none, and
   * has its source file set (overwritten if present).
   */
  lemma StampShape(atom: Dict, tag: string, id: string)
    ensures Stamp(atom, tag, id).Keys == atom.Keys + {"id", "source_file"}
    ensures Stamp(atom, tag, id)["source_file"] == JStr(tag)
    ensures Stamp(atom, tag, id)["id"] == (if "id" in atom then atom["id"] else JStr(id))
    ensures forall k :: k in atom && k != "id" && k != "source_file" ==> Stamp(atom, tag, id)[k] == atom[k]
  {
  }

  // ---------------------------------------------------------------------------
  // run_llm_atomiser_single and chunk_and_atomise (second half)
  // ---------------------------------------------------------------------------

  /** The tag `f"{source_file} (chunk {chunk_num})"`. */
  function ChunkTag(file: string, k: nat): string
  {
    file + " (chunk " + NatStr(k) + ")"
  }

  /** Every item stamped in order, or `None` when an item is not a dict (setdefault raises). */
  function StampAll(items: seq<Value>, tag: string, mint: IdSource, call: nat): Option<seq<Value>>
  {
    if items == [] then Some([])
    else
      var front := StampAll(items[..|items| - 1], tag, mint, call);
      var last := items[|items| - 1];
      if front.Some? && last.JObj? then
        Some(front.value + [JObj(Stamp(last.fields, tag, mint(call, |items| - 1)))])
      else None
  }

  /**
   * Stamping succeeds exactly when every item is a dict, and then item i
   * becomes item i stamped with the i-th fresh id of the call.
   */
  lemma {:induction false} StampAllShape(items: seq<Value>, tag: string, mint: IdSource, call: nat)
    ensures var r := StampAll(items, tag, mint, call);
      && (r.Some? <==> forall i :: 0 <= i < |items| ==> items[i].JObj?)
      && (r.Some? ==> |r.value| == |items|
                      && forall i :: 0 <= i < |items| ==>
                           r.value[i] == JObj(Stamp(items[i].fields, tag, mint(call, i))))
  {
    if items != [] {
      var front := items[..|items| - 1];
      StampAllShape(front, tag, mint, call);
      assert forall i :: 0 <= i < |items| - 1 ==> front[i] == items[i];
    }
  }

  /**
   * `run_llm_atomiser_single`: the stamped list when the reply is a JSON list
   * of dicts, and `[]` for any failure (the call, the parse, a non-list, or a
   * non-dict item).
   */
  function AtomiseChunk(o: Outcome, tag: string, mint: IdSource, call: nat): seq<Value>
  {
    match o
    case Parsed(JArr(items)) => StampAll(items, tag, mint, call).GetOr([])
    case _ => []
  }

  /**
   * A chunk's atoms are its reply's items, all dicts, each with an id and the
   * chunk's tag as source file; any failure gives none.
   */
  lemma AtomiseChunkShape(o: Outcome, tag: string, mint: IdSource, call: nat)
    ensures var r := AtomiseChunk(o, tag, mint, call);
      && (forall a :: a in r ==> a.JObj? && "id" in a.fields && "source_file" in a.fields
                                 && a.fields["source_file"] == JStr(tag))
      && (r != [] ==> o.Parsed? && o.value.JArr? && |r| == |o.value.items|)
  {
    if o.Parsed? && o.value.JArr? {
      var items := o.value.items;
      StampAllShape(items, tag, mint, call);
      var r := StampAll(items, tag, mint, call);
      if r.Some? {
        forall a | a in r.value
          ensures a.JObj? && "id" in a.fields && "source_file" in a.fields && a.fields["source_file"] == JStr(tag)
        {
          var i :| 0 <= i < |r.value| && r.value[i] == a;
          StampShape(items[i].fields, tag, mint(call, i));
        }
      }
    }
  }

  /** The atoms of the first `n` chunks, chunk k (1-based) sent as model call `start + k - 1`. */
  function ChunkedAtoms(chunks: seq<string>, file: string, ask: Ask,
                        mint: IdSource, start: nat, n: nat): seq<Value>
    requires n <= |chunks|
  {
    if n == 0 then []
    else
      ChunkedAtoms(chunks, file, ask, mint, start, n - 1)
      + AtomiseChunk(ask(start + n - 1, chunks[n - 1]), ChunkTag(file, n), mint, start + n - 1)
  }

  /**
   * Every atom of a chunked run is a dict tagged with the 1-based index of the
   * chunk it came from, and the atoms of chunk k follow those of chunk k-1.
   */
  lemma {:induction false} ChunkedAtomsTagged(chunks: seq<string>, file: string, ask: Ask,
                                                mint: IdSource, start: nat, n: nat)
    requires n <= |chunks|
    ensures forall a :: a in ChunkedAtoms(chunks, file, ask, mint, start, n) ==>
              a.JObj? && "source_file" in a.fields
              && exists k :: 1 <= k <= n && a.fields["source_file"] == JStr(ChunkTag(file, k))
  {
    if n > 0 {
      var prev := ChunkedAtoms(chunks, file, ask, mint, start, n - 1);
      var tail := AtomiseChunk(ask(start + n - 1, chunks[n - 1]), ChunkTag(file, n), mint, start + n - 1);
      forall a: Value | a in prev + tail
        ensures a.JObj? && "source_file" in a.fields
                && exists k :: 1 <= k <= n && a.fields["source_file"] == JStr(ChunkTag(file, k))
      {
        if a in prev {
          ChunkedAtomsTagged(chunks, file, ask, mint, start, n - 1);
          var k :| 1 <= k <= n - 1 && a.fields["source_file"] == JStr(ChunkTag(file, k));
        } else {
          AtomTagged(ask(start + n - 1, chunks[n - 1]), ChunkTag(file, n), mint, start + n - 1, a);
        }
      }
    }
  }

  /** One atom of a chunk carries the chunk's tag as its source file. */
  lemma AtomTagged(o: Outcome, tag: string, mint: IdSource, call: nat, a: Value)
    requires a in AtomiseChunk(o, tag, mint, call)
    ensures a.JObj? && "source_file" in a.fields && a.fields["source_file"] == JStr(tag)
  {
    AtomiseChunkShape(o, tag, mint, call);
  }

  /** `chunk_and_atomise`: pack the lines, then atomise every chunk in order and concatenate. */
  method ChunkAndAtomise(text: string, file: string, size: nat, ask: Ask,
                         mint: IdSource, start: nat) returns (atoms: seq<Value>, calls: nat)
    ensures calls == |Chunks(text, size)|
    ensures atoms == ChunkedAtoms(Chunks(text, size), file, ask, mint, start, calls)
  {
    var chunks := SplitIntoChunks(text, size);
    atoms := [];
    for i := 0 to |chunks|
      invariant atoms == ChunkedAtoms(chunks, file, ask, mint, start, i)
    {
      var chunkAtoms := AtomiseChunk(ask(start + i, chunks[i]), ChunkTag(file, i + 1), mint, start + i);
      atoms := atoms + chunkAtoms;
    }
    calls := |chunks|;
  }

  // ---------------------------------------------------------------------------
  // run_llm_atomiser: the retry loop on texts of at most 15000 characters
  // ---------------------------------------------------------------------------

  /** The atom test of the retry loop: a dict that has a "text" key. */
  predicate IsAtom(v: Value)
  {
    v.JObj? && "text" in v.fields
  }

  /** The valid atoms of a reply, stamped with the file name, in order. */
  function ValidAtoms(items: seq<Value>, file: string, mint: IdSource, call: nat): seq<Value>
  {
    if items == [] then []
    else
      var front := ValidAtoms(items[..|items| - 1], file, mint, call);
      var last := items[|items| - 1];
      if IsAtom(last) then front + [JObj(Stamp(last.fields, file, mint(call, |items| - 1)))]
      else front
  }

  /**
   * The valid atoms are at most the items, there are none exactly when no item
   * is a dict with a "text" key, and each is such a dict with an id and the
   * file name as its source.
   */
  lemma {:induction false} ValidAtomsShape(items: seq<Value>, file: string, mint: IdSource, call: nat)
    ensures |ValidAtoms(items, file, mint, call)| <= |items|
    ensures ValidAtoms(items, file, mint, call) == [] <==> forall i :: 0 <= i < |items| ==> !IsAtom(items[i])
    ensures forall a :: a in ValidAtoms(items, file, mint, call) ==>
              IsAtom(a) && "id" in a.fields && "source_file" in a.fields && a.fields["source_file"] == JStr(file)
  {
    if items != [] {
      var front := items[..|items| - 1];
      var last := items[|items| - 1];
      ValidAtomsShape(front, file, mint, call);
      assert forall i :: 0 <= i < |items| - 1 ==> front[i] == items[i];
      if IsAtom(last) {
        StampShape(last.fields, file, mint(call, |items| - 1));
      }
    }
  }

  /** How one attempt of the retry loop ends. */
  datatype Attempt = Success(atoms: seq<Value>) | JsonError | OtherError

  /**
   * One attempt: a call error, a non-list result and a list without a valid
   * atom all count as "other" errors; only `json.loads` failing is a JSON error.
   */
  function TryAtomise(o: Outcome, file: string, mint: IdSource, call: nat): Attempt
  {
    match o
    case CallError => OtherError
    case ParseError => JsonError
    case Parsed(v) =>
      if v.JArr? then
        var valid := ValidAtoms(v.items, file, mint, call);
        if valid == [] then OtherError else Success(valid)
      else OtherError
  }

  /** After a JSON error the prompt is rebuilt from the first 10000 characters of the text. */
  function NextPayload(a: Attempt, text: string, payload: string): string
  {
    if a.JsonError? then Take(text, ShrunkLength) else payload
  }

  const FailureSpeaker: string := "ERROR"

  /** The atom returned after three failed attempts. */
  function ErrorAtom(text: string, file: string, id: string): Value
  {
    JObj(map[
      "id" := JStr(id),
      "speaker" := JStr(FailureSpeaker),
      "text" := JStr("[Atomiser failed after 3 attempts. Text length: " + NatStr(|text|)
                     + " chars. Last error: JSON parsing failed]"),
      "context" := JStr(""),
      "entities" := JObj(map["objects" := JArr([]), "tasks" := JArr([]), "emotions" := JArr([])]),
      "confidence" := JStr("low"),
      "source_file" := JStr(file)
    ])
  }

  /** How the attempt sent as model call c with `payload` in the prompt ends. */
  type Attempter = (nat, string) -> Attempt

  /** The atomiser's attempts: one call, its parse, and the filter over the items. */
  function Attempts(ask: Ask, file: string, mint: IdSource): Attempter
  {
    (c: nat, payload: string) => TryAtomise(ask(c, payload), file, mint, c)
  }

  /** `tries` answers every attempt as the atomiser does. */
  ghost predicate IsAttempter(tries: Attempter, ask: Ask, file: string, mint: IdSource)
  {
    forall c: nat, payload: string {:trigger TryAtomise(ask(c, payload), file, mint, c)} ::
      tries(c, payload) == TryAtomise(ask(c, payload), file, mint, c)
  }

  lemma AttemptsAnswer(ask: Ask, file: string, mint: IdSource)
    ensures IsAttempter(Attempts(ask, file, mint), ask, file, mint)
  {
  }

  /**
   * The retry loop from attempt `attempt` on, with `payload` in the prompt:
   * the atoms of the first successful attempt (`[]` when all fail) and the
   * payloads sent, one per model call.
   */
  function Retry(text: string, tries: Attempter, start: nat, attempt: nat, payload: string)
    : (seq<Value>, seq<string>)
    requires attempt < RetryAttempts
    decreases RetryAttempts - attempt
  {
    var a := tries(start + attempt, payload);
    if a.Success? then (a.atoms, [payload])
    else if attempt == RetryAttempts - 1 then ([], [payload])
    else
      var rest := Retry(text, tries, start, attempt + 1, NextPayload(a, text, payload));
      (rest.0, [payload] + rest.1)
  }

  /**
   * What the retry loop promises: between one and three calls; every attempt
   * but the last failed, and the payload after a JSON error is the first 10000
   * characters of the text; the result is the last attempt's valid atoms, or
   * nothing when the third attempt failed too.
   */
  lemma {:induction false} RetryShape(text: string, tries: Attempter, start: nat, attempt: nat, payload: string)
    requires attempt < RetryAttempts
    ensures var (atoms, sent) := Retry(text, tries, start, attempt, payload);
      && 1 <= |sent| <= RetryAttempts - attempt
      && sent[0] == payload
      && (forall k :: 0 <= k < |sent| - 1 ==>
            !tries(start + attempt + k, sent[k]).Success?
            && sent[k + 1] == NextPayload(tries(start + attempt + k, sent[k]), text, sent[k]))
      && var last := tries(start + attempt + |sent| - 1, sent[|sent| - 1]);
         (last.Success? ==> atoms == last.atoms)
         && (!last.Success? ==> attempt + |sent| == RetryAttempts && atoms == [])
    decreases RetryAttempts - attempt
  {
    var a := tries(start + attempt, payload);
    if !a.Success? && attempt < RetryAttempts - 1 {
      var next := NextPayload(a, text, payload);
      RetryShape(text, tries, start, attempt + 1, next);
      var rest := Retry(text, tries, start, attempt + 1, next);
      var sent := rest.1;
      var all := [payload] + sent;
      assert Retry(text, tries, start, attempt, payload) == (rest.0, all);
      forall k | 0 <= k < |all| - 1
        ensures !tries(start + attempt + k, all[k]).Success?
        ensures all[k + 1] == NextPayload(tries(start + attempt + k, all[k]), text, all[k])
      {
        if k > 0 {
          assert all[k] == sent[k - 1] && all[k + 1] == sent[k];
          assert start + attempt + k == start + (attempt + 1) + (k - 1);
        }
      }
      assert start + attempt + |all| - 1 == start + (attempt + 1) + |sent| - 1;
    }
  }

  /**
   * The loop of `run_llm_atomiser` on a text of at most 15000 characters. An
   * empty result means all three attempts failed.
   */
  method AtomiseWithRetry(text: string, file: string, ask: Ask, mint: IdSource, start: nat, ghost tries: Attempter)
    returns (atoms: seq<Value>, sent: seq<string>)
    requires IsAttempter(tries, ask, file, mint)
    ensures (atoms, sent) == Retry(text, tries, start, 0, text)
  {
    ghost var whole := Retry(text, tries, start, 0, text);
    var payload := text;
    sent := [];
    var attempt := 0;
    assert [] + whole.1 == whole.1;
    while attempt < RetryAttempts
      invariant attempt <= RetryAttempts && |sent| == attempt
      invariant attempt < RetryAttempts ==>
        whole == (Retry(text, tries, start, attempt, payload).0, sent + Retry(text, tries, start, attempt, payload).1)
      invariant attempt == RetryAttempts ==> whole == ([], sent)
    {
      ghost var before, current := sent, payload;
      sent := sent + [payload];
      var a := RunAttempt(ask, file, mint, start + attempt, payload, tries);
      if a.Success? {
        return a.atoms, sent;
      }
      if a.JsonError? && attempt < RetryAttempts - 1 {
        payload := Take(text, ShrunkLength);
      }
      if attempt < RetryAttempts - 1 {
        ghost var rest := Retry(text, tries, start, attempt + 1, payload);
        assert before + ([current] + rest.1) == sent + rest.1;
      }
      attempt := attempt + 1;
    }
    atoms := [];
  }

  /** One attempt: the call, the cleanup and parse, then the filter over the items. */
  method RunAttempt(ask: Ask, file: string, mint: IdSource, call: nat, payload: string, ghost tries: Attempter)
    returns (a: Attempt)
    requires IsAttempter(tries, ask, file, mint)
    ensures a == tries(call, payload)
  {
    var outcome := ask(call, payload);
    if outcome.CallError? {
      a := OtherError;
    } else if outcome.ParseError? {
      a := JsonError;
    } else if outcome.value.JArr? {
      var valid := CollectAtoms(outcome.value.items, file, mint, call);
      a := if valid == [] then OtherError else Success(valid);
    } else {
      a := OtherError;
    }
    assert a == TryAtomise(ask(call, payload), file, mint, call);
  }

  /** The item loop of an attempt: keep the dicts with a "text" key and stamp each. */
  method CollectAtoms(items: seq<Value>, file: string, mint: IdSource, call: nat) returns (valid: seq<Value>)
    ensures valid == ValidAtoms(items, file, mint, call)
  {
    valid := [];
    for j := 0 to |items|
      invariant valid == ValidAtoms(items[..j], file, mint, call)
    {
      assert items[..j + 1][..j] == items[..j];
      if IsAtom(items[j]) {
        var stamped := Stamp(items[j].fields, file, mint(call, j));
        valid := valid + [JObj(stamped)];
      }
    }
    assert items[..|items|] == items;
  }

  /**
   * `run_llm_atomiser`: the atoms and the number of model calls. Texts longer
   * than 15000 characters go through the chunker (8000-character chunks, one
   * call per chunk); shorter ones through the retry loop.
   */
  function Atomiser(text: string, file: string, ask: Ask, mint: IdSource, start: nat): (seq<Value>, nat)
  {
    if |text| > ChunkThreshold then
      var chunks := Chunks(text, ChunkSize);
      (ChunkedAtoms(chunks, file, ask, mint, start, |chunks|), |chunks|)
    else
      var (atoms, sent) := Retry(text, Attempts(ask, file, mint), start, 0, text);
      (if atoms == [] then [ErrorAtom(text, file, mint(start + RetryAttempts, 0))] else atoms, |sent|)
  }

  /**
   * The atomiser makes one call per chunk on a long text and one to three on
   * a short one, and never returns an empty list for a short text: after three
   * failures it returns the error atom.
   */
  lemma AtomiserShape(text: string, file: string, ask: Ask, mint: IdSource, start: nat)
    ensures var (atoms, calls) := Atomiser(text, file, ask, mint, start);
      && (|text| > ChunkThreshold ==> calls == |Chunks(text, ChunkSize)|)
      && (|text| <= ChunkThreshold ==> 1 <= calls <= RetryAttempts && atoms != [])
  {
    if |text| <= ChunkThreshold {
      RetryShape(text, Attempts(ask, file, mint), start, 0, text);
    }
  }

  /** The atomiser's result on a text whose first model call has the given number. */
  type AtomiserRun = (string, nat) -> (seq<Value>, nat)

  /** `run` returns what the atomiser returns, for every text and first call number. */
  ghost predicate Atomises(run: AtomiserRun, file: string, ask: Ask, mint: IdSource)
  {
    forall text: string, start: nat {:trigger Atomiser(text, file, ask, mint, start)} ::
      run(text, start) == Atomiser(text, file, ask, mint, start)
  }

  lemma AtomiserAtomises(file: string, ask: Ask, mint: IdSource)
    ensures Atomises((text: string, start: nat) => Atomiser(text, file, ask, mint, start), file, ask, mint)
  {
  }

  method RunAtomiser(text: string, file: string, ask: Ask, mint: IdSource, start: nat, ghost run: AtomiserRun)
    returns (atoms: seq<Value>, calls: nat)
    requires Atomises(run, file, ask, mint)
    ensures (atoms, calls) == run(text, start)
  {
    if |text| > ChunkThreshold {
      atoms, calls := ChunkAndAtomise(text, file, ChunkSize, ask, mint, start);
    } else {
      var sent;
      AttemptsAnswer(ask, file, mint);
      atoms, sent := AtomiseWithRetry(text, file, ask, mint, start, Attempts(ask, file, mint));
      if atoms == [] {
        atoms := [ErrorAtom(text, file, mint(start + RetryAttempts, 0))];
      }
      calls := |sent|;
    }
    assert (atoms, calls) == Atomiser(text, file, ask, mint, start);
  }

  // ---------------------------------------------------------------------------
  // annotate_atom and annotate_atoms
  // ---------------------------------------------------------------------------

  const NoAnnotation: Dict := map["insights" := JArr([]), "tags" := JArr([])]

  /** `payload.get(k, [])` when the reply parsed to a dict, and `[]` after any failure. */
  function AnnotationField(o: Outcome, k: string): Value
  {
    if o.Parsed? && o.value.JObj? && k in o.value.fields then o.value.fields[k] else JArr([])
  }

  /** `annotate_atom`: the insights and tags of one reply. */
  function AnnotateAtom(o: Outcome): Dict
  {
    map["insights" := AnnotationField(o, "insights"), "tags" := AnnotationField(o, "tags")]
  }

  /**
   * The annotation has exactly the keys "insights" and "tags", taken from the
   * reply's dict (each `[]` when absent), and both are `[]` when the call, the
   * parse, or `payload.get` on a non-dict fails.
   */
  lemma AnnotateAtomShape(o: Outcome)
    ensures AnnotateAtom(o).Keys == {"insights", "tags"}
    ensures !(o.Parsed? && o.value.JObj?) ==> AnnotateAtom(o) == NoAnnotation
    ensures o.Parsed? && o.value.JObj? ==>
              var fs := o.value.fields;
              AnnotateAtom(o)["insights"] == (if "insights" in fs then fs["insights"] else JArr([]))
              && AnnotateAtom(o)["tags"] == (if "tags" in fs then fs["tags"] else JArr([]))
  {
  }

  /** The atom's text when it is a string; `atom["text"]` raises otherwise. */
  predicate HasText(atom: Dict)
  {
    "text" in atom && atom["text"].JStr?
  }

  /** One atom with the annotation of its text, asked as model call `call`. */
  function AnnotateOne(atom: Dict, ask: Ask, call: nat): Value
    requires HasText(atom)
  {
    JObj(atom + AnnotateAtom(ask(call, atom["text"].s)))
  }

  /** An annotated atom keeps every field but insights and tags, and gains those two. */
  lemma AnnotateOneKeeps(atom: Dict, ask: Ask, call: nat)
    requires HasText(atom)
    ensures AnnotateOne(atom, ask, call).JObj?
    ensures AnnotateOne(atom, ask, call).fields.Keys == atom.Keys + {"insights", "tags"}
    ensures forall k :: k in atom && k != "insights" && k != "tags" ==> AnnotateOne(atom, ask, call).fields[k] == atom[k]
  {
    AnnotateAtomShape(ask(call, atom["text"].s));
  }

  /** The enriched atoms of the first `n` atoms, atom i annotated by model call `start + i`. */
  function Enriched(atoms: seq<Dict>, ask: Ask, start: nat, n: nat): (r: seq<Value>)
    requires n <= |atoms|
    requires forall i :: 0 <= i < n ==> HasText(atoms[i])
    ensures |r| == n
  {
    if n == 0 then []
    else
      Enriched(atoms, ask, start, n - 1) + [AnnotateOne(atoms[n - 1], ask, start + n - 1)]
  }

  /** Atom i of the enriched list is atom i annotated by model call `start + i`. */
  lemma {:induction false} EnrichedAt(atoms: seq<Dict>, ask: Ask, start: nat, n: nat)
    requires n <= |atoms|
    requires forall i :: 0 <= i < n ==> HasText(atoms[i])
    ensures forall i :: 0 <= i < n ==>
      Enriched(atoms, ask, start, n)[i] == AnnotateOne(atoms[i], ask, start + i)
  {
    if n > 0 {
      EnrichedAt(atoms, ask, start, n - 1);
      var prev := Enriched(atoms, ask, start, n - 1);
      var all := Enriched(atoms, ask, start, n);
      assert all == prev + [AnnotateOne(atoms[n - 1], ask, start + n - 1)];
      forall i | 0 <= i < n - 1
        ensures all[i] == AnnotateOne(atoms[i], ask, start + i)
      {
        assert all[i] == prev[i];
      }
    }
  }

  /**
   * Annotation keeps every atom, in order, with all its fields, and only
   * insights and tags change.
   */
  lemma EnrichedKeepsAtoms(atoms: seq<Dict>, ask: Ask, start: nat, n: nat)
    requires n <= |atoms|
    requires forall i :: 0 <= i < n ==> HasText(atoms[i])
    ensures forall i :: 0 <= i < n ==>
      var e := Enriched(atoms, ask, start, n)[i];
      e.JObj?
      && e.fields.Keys == atoms[i].Keys + {"insights", "tags"}
      && (forall k :: k in atoms[i] && k != "insights" && k != "tags" ==> e.fields[k] == atoms[i][k])
  {
    EnrichedAt(atoms, ask, start, n);
    forall i | 0 <= i < n
      ensures Enriched(atoms, ask, start, n)[i].JObj?
      ensures Enriched(atoms, ask, start, n)[i].fields.Keys == atoms[i].Keys + {"insights", "tags"}
      ensures forall k :: k in atoms[i] && k != "insights" && k != "tags" ==>
                Enriched(atoms, ask, start, n)[i].fields[k] == atoms[i][k]
    {
      AnnotateOneKeeps(atoms[i], ask, start + i);
    }
  }


  /** The index of the first atom without a string text (`|atoms|` if none). */
  function FirstWithoutText(atoms: seq<Dict>): (k: nat)
    ensures k <= |atoms|
    ensures forall i :: 0 <= i < k ==> HasText(atoms[i])
    ensures k < |atoms| ==> !HasText(atoms[k])
  {
    if atoms == [] || !HasText(atoms[0]) then 0 else 1 + FirstWithoutText(atoms[1..])
  }

  /** The first atom without text is the one the loop stops at. */
  lemma FirstWithoutTextAt(atoms: seq<Dict>, k: nat)
    requires k <= |atoms|
    requires forall i :: 0 <= i < k ==> HasText(atoms[i])
    requires k < |atoms| ==> !HasText(atoms[k])
    ensures FirstWithoutText(atoms) == k
  {
  }

  // ---------------------------------------------------------------------------
  // The cached endpoints
  // ---------------------------------------------------------------------------

  function AtomsKey(slug: string, filename: string): Key { Key(Project(slug), Atoms, Renamed(filename, ".json")) }
  function CleanedKey(slug: string, filename: string): Key { Key(Project(slug), Cleaned, Renamed(filename, ".txt")) }
  function RawKey(slug: string, filename: string): Key { Key(Project(slug), Raw, filename) }
  function AnnotatedKey(slug: string, filename: string): Key { Key(Project(slug), Annotated, Renamed(filename, ".json")) }

  /**
   * The cleaned transcript `atomise_file` works on: the cached cleaned text,
   * or else the raw PDF's extracted text passed through the normaliser and
   * written to the cache. `None` when neither file exists or extraction fails.
   * `extract` is the PDF text extraction (`None` when it raises).
   */
  method LoadCleanText(disk: Disk, filename: string, slug: string, oracle: Oracle,
                       extract: string -> Option<string>, start: nat)
    returns (clean: Option<string>, calls: nat)
    modifies disk
    ensures calls <= 2
    ensures CleanedKey(slug, filename) in old(disk.files) ==>
              clean == Some(old(disk.files)[CleanedKey(slug, filename)]) && calls == 0
              && disk.files == old(disk.files)
    ensures CleanedKey(slug, filename) !in old(disk.files) && RawKey(slug, filename) !in old(disk.files) ==>
              clean == None && calls == 0 && disk.files == old(disk.files)
    ensures CleanedKey(slug, filename) !in old(disk.files) && RawKey(slug, filename) in old(disk.files) ==>
              (clean.Some? <==> extract(old(disk.files)[RawKey(slug, filename)]).Some?)
              && (clean.None? ==> calls == 0 && disk.files == old(disk.files))
              && (clean.Some? ==> 1 <= calls
                                  && disk.files == old(disk.files)[CleanedKey(slug, filename) := clean.value])
  {
    var cleanedKey, rawKey := CleanedKey(slug, filename), RawKey(slug, filename);
    if cleanedKey in disk.files {
      return Some(disk.files[cleanedKey]), 0;
    }
    if rawKey !in disk.files {
      return None, 0;
    }
    var full := extract(disk.files[rawKey]);
    if full.None? {
      return None, 0;
    }
    var text, used := SharedUtils.RunNormalizer(full.value, oracle, start);
    disk.files := disk.files[cleanedKey := text];
    return Some(text), used;
  }

  /**
   * `atomise_file` once the cache has missed: load the cleaned text, atomise
   * it and write the atoms. A missing raw PDF raises a 404 inside the `try`,
   * which the handler turns into a 500 like every other exception.
   */
  method AtomiseUncached(disk: Disk, filename: string, slug: string, oracle: Oracle, parse: Parser,
                         dumps: Serializer, extract: string -> Option<string>, mint: IdSource, start: nat,
                         ghost run: AtomiserRun)
    returns (resp: Response, calls: nat, ghost used: nat, ghost text: string, ghost atoms: seq<Value>)
    requires Atomises(run, filename, Asking(oracle, parse, CleanForParse), mint)
    modifies disk
    ensures CleanedKey(slug, filename) !in old(disk.files) && RawKey(slug, filename) !in old(disk.files) ==>
              resp == HttpError(500) && calls == 0 && disk.files == old(disk.files)
    ensures resp.Ok? || (resp == HttpError(500) && calls == 0 && disk.files == old(disk.files))
    ensures resp.Ok? <==>
              CleanedKey(slug, filename) in old(disk.files)
              || (RawKey(slug, filename) in old(disk.files) && extract(old(disk.files)[RawKey(slug, filename)]).Some?)
    ensures resp.Ok? ==>
              used <= 2
              && (CleanedKey(slug, filename) in old(disk.files) ==>
                    used == 0 && text == old(disk.files)[CleanedKey(slug, filename)])
              && disk.files == old(disk.files)[CleanedKey(slug, filename) := text][AtomsKey(slug, filename) := dumps(JArr(atoms))]
              && (atoms, calls - used) == run(text, start + used)
              && resp == Ok(JObj(map["atoms" := JArr(atoms)]))
  {
    ghost var before := disk.files;
    var clean, loaded := LoadCleanText(disk, filename, slug, oracle, extract, start);
    if clean.None? {
      return HttpError(500), 0, 0, [], [];
    }
    if CleanedKey(slug, filename) in before {
      assert before[CleanedKey(slug, filename) := clean.value] == before;
    }
    var result, n := RunAtomiser(clean.value, filename, Asking(oracle, parse, CleanForParse), mint, start + loaded, run);
    calls := loaded + n;
    used, text, atoms := loaded, clean.value, result;
    disk.files := disk.files[AtomsKey(slug, filename) := dumps(JArr(result))];
    resp := Ok(JObj(map["atoms" := JArr(result)]));
  }

  /** `atomise_file`: argument checks, then the cached atoms, then the uncached path. */
  method AtomiseFile(disk: Disk, filename: string, slug: string, oracle: Oracle, parse: Parser,
                     dumps: Serializer, extract: string -> Option<string>, mint: IdSource, start: nat,
                         ghost run: AtomiserRun)
    returns (resp: Response, calls: nat, ghost used: nat, ghost text: string, ghost atoms: seq<Value>)
    requires Atomises(run, filename, Asking(oracle, parse, CleanForParse), mint)
    modifies disk
    ensures !IsPdfName(filename) || slug == "" ==>
              resp == HttpError(400) && calls == 0 && disk.files == old(disk.files)
    ensures IsPdfName(filename) && slug != "" && AtomsKey(slug, filename) in old(disk.files) ==>
              calls == 0 && disk.files == old(disk.files)
              && resp == (match parse(old(disk.files)[AtomsKey(slug, filename)])
                          case None => HttpError(500)
                          case Some(v) => Ok(JObj(map["atoms" := v])))
    ensures IsPdfName(filename) && slug != "" && AtomsKey(slug, filename) !in old(disk.files)
            && CleanedKey(slug, filename) !in old(disk.files) && RawKey(slug, filename) !in old(disk.files) ==>
              resp == HttpError(500) && calls == 0 && disk.files == old(disk.files)
    ensures IsPdfName(filename) && slug != "" && AtomsKey(slug, filename) !in old(disk.files) ==>
              (resp.Ok? <==>
                 CleanedKey(slug, filename) in old(disk.files)
                 || (RawKey(slug, filename) in old(disk.files) && extract(old(disk.files)[RawKey(slug, filename)]).Some?))
              && (!resp.Ok? ==> resp == HttpError(500) && calls == 0 && disk.files == old(disk.files))
    ensures resp.Ok? && AtomsKey(slug, filename) !in old(disk.files) ==>
              used <= 2
              && (CleanedKey(slug, filename) in old(disk.files) ==>
                    used == 0 && text == old(disk.files)[CleanedKey(slug, filename)])
              && disk.files == old(disk.files)[CleanedKey(slug, filename) := text][AtomsKey(slug, filename) := dumps(JArr(atoms))]
              && (atoms, calls - used) == run(text, start + used)
              && resp == Ok(JObj(map["atoms" := JArr(atoms)]))
  {
    if !IsPdfName(filename) || slug == "" {
      return HttpError(400), 0, 0, [], [];
    }
    var atomsKey := AtomsKey(slug, filename);
    if atomsKey in disk.files {
      var cached := parse(disk.files[atomsKey]);
      if cached.None? {
        return HttpError(500), 0, 0, [], [];
      }
      return Ok(JObj(map["atoms" := cached.value])), 0, 0, [], [];
    }
    resp, calls, used, text, atoms := AtomiseUncached(disk, filename, slug, oracle, parse, dumps, extract, mint, start, run);
  }

  /**
   * The annotation loop of `annotate_atoms`: atom i is sent as model call
   * `start + i`; the loop stops at the first atom without a string text.
   */
  method AnnotateAll(atoms: seq<Dict>, ask: Ask, start: nat)
    returns (enriched: seq<Value>, calls: nat, complete: bool)
    ensures calls == FirstWithoutText(atoms)
    ensures complete <==> calls == |atoms|
    ensures complete ==> enriched == Enriched(atoms, ask, start, |atoms|)
  {
    enriched := [];
    calls := 0;
    while calls < |atoms|
      invariant calls <= |atoms|
      invariant forall i :: 0 <= i < calls ==> HasText(atoms[i])
      invariant |enriched| == calls
      invariant forall i :: 0 <= i < calls ==> enriched[i] == AnnotateOne(atoms[i], ask, start + i)
    {
      var atom := atoms[calls];
      if !HasText(atom) {
        FirstWithoutTextAt(atoms, calls);
        return enriched, calls, false;
      }
      enriched := enriched + [AnnotateOne(atom, ask, start + calls)];
      calls := calls + 1;
    }
    FirstWithoutTextAt(atoms, calls);
    EnrichedAt(atoms, ask, start, calls);
    complete := true;
  }

  /**
   * `annotate_atoms`: a cached list is returned as stored; otherwise every atom
   * is annotated in order and the list is written. An atom without a string
   * "text" makes the request fail with 500 before anything is written.
   */
  method AnnotateAtoms(disk: Disk, atoms: seq<Dict>, filename: string, slug: string, oracle: Oracle,
                       parse: Parser, dumps: Serializer, start: nat)
    returns (resp: Response, calls: nat)
    modifies disk
    ensures slug == "" ==> resp == HttpError(400) && calls == 0 && disk.files == old(disk.files)
    ensures slug != "" && AnnotatedKey(slug, filename) in old(disk.files) ==>
              calls == 0 && disk.files == old(disk.files)
              && resp == (match parse(old(disk.files)[AnnotatedKey(slug, filename)])
                          case None => HttpError(500)
                          case Some(v) => Ok(v))
    ensures slug != "" && AnnotatedKey(slug, filename) !in old(disk.files) && FirstWithoutText(atoms) < |atoms| ==>
              resp == HttpError(500) && calls == FirstWithoutText(atoms) && disk.files == old(disk.files)
    ensures slug != "" && AnnotatedKey(slug, filename) !in old(disk.files) && FirstWithoutText(atoms) == |atoms| ==>
              var enriched := Enriched(atoms, Asking(oracle, parse, CleanForParseNoFix), start, |atoms|);
              calls == |atoms| && resp == Ok(JArr(enriched))
              && disk.files == old(disk.files)[AnnotatedKey(slug, filename) := dumps(JArr(enriched))]
  {
    if slug == "" {
      return HttpError(400), 0;
    }
    var key := AnnotatedKey(slug, filename);
    if key in disk.files {
      var cached := parse(disk.files[key]);
      if cached.None? {
        return HttpError(500), 0;
      }
      return Ok(cached.value), 0;
    }
    var enriched, complete;
    enriched, calls, complete := AnnotateAll(atoms, Asking(oracle, parse, CleanForParseNoFix), start);
    if !complete {
      return HttpError(500), calls;
    }
    disk.files := disk.files[key := dumps(JArr(enriched))];
    resp := Ok(JArr(enriched));
  }
}
