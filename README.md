# Mother2Synth pipeline core, modelled in Dafny

Mother2Synth turns interview transcripts (PDF uploads) into a research
synthesis. Each stage asks a language model for its output and caches that
output on disk, per project:

- normalise the raw text;
- cut it into atoms (quotes with a speaker);
- annotate every atom with insights and tags;
- build a graph over the atoms;
- check the synthesis with a quality guard and raise questions for a human
  reviewer;
- lay out a board, answer questions in a chat assistant and keep reviewer
  comments per transcript.

Once the model and the disk are abstracted, what is left is deterministic,
sequential logic. This project models that logic and proves what it promises.

- **The language model** is an oracle `(k, payload) -> Reply`: the reply to
  the k-th call of a request whose prompt carries `payload`. It is an answer
  text or a failure (module `Llm`). `json.loads` is an arbitrary partial
  parser. Every method that calls the model takes the index of its first call
  and returns how many calls it made.
- **The disk** is a map from (project, stage, file name) to file contents
  (module `Store`, class `Disk`). The route handlers are methods over it:
  a cache hit returns the stored content without a model call, a miss
  computes and then writes, and a failed precondition answers 400 or 404.
- **JSON values** are a datatype (module `Json`). Python dicts are maps and
  lists are sequences.
- **Helpers:** `Text` holds the string helpers (strip, lower, split,
  replace), `Seqs` the generic filter, map and flatten lemmas, and
  `Wrappers` `Option`.

One module per source file:

| module | source |
|---|---|
| `Repair` | fence stripping and `fix_json_syntax` (backend/routes/atoms.py, backend/routes/graph.py, backend/main.py) |
| `Atoms` | backend/routes/atoms.py: chunker, atomiser with retries, annotator, the two cached routes |
| `SharedUtils` | backend/shared_utils.py: the normaliser |
| `GraphBuilder` | backend/main.py: model graph builder, fallback graph, `build_graph` |
| `PairGraph` | backend/routes/graph.py: all-pairs graph, themes and enhancement replies |
| `Upload` | backend/routes/upload.py: upload, normalise, list, cached read, delete |
| `QualityGuard` | backend/quality_guard.py: the eight checks and the report |
| `HumanCheckpoints` | backend/human_checkpoints.py: question generation and the question list |
| `BoardCreator` | backend/board_creator.py: board layout |
| `ChatAssistant` | backend/chat_assistant.py: intents, responders, history |
| `DropZone` | backend/dropzone.py: slugs, paths and the project registry |
| `Comments` | backend/routes/comments.py: the per-exchange comment store |
| `GraphStage` | frontend/src/GraphStage.jsx: `formatGraphData`, `getConnectedNodes`, `nodeVal` |

Objects whose fields the source updates in place are classes: `Disk`,
`HumanCheckpoints.CheckpointManager` with its `Question` objects,
`ChatAssistant.Assistant`, `DropZone.DropZoneManager` and
`Comments.CommentStore`. Loops in the source are methods with loop
invariants, proved equal to a specification function. The properties are
proved about those functions.

## Model

| member | source | states |
|---|---|---|
| Llm.Decode | backend/routes/atoms.py:53-59 | a model call reads as a call error exactly when the call failed, and as a parse error exactly when `json.loads` of the cleaned reply fails |
| Repair.NextNonSpace | backend/routes/atoms.py:23 | the scan over `[\s]*` stops at the first non-whitespace index at or after j |
| Repair.WithoutDanglingCommas | backend/routes/atoms.py:23 | the reference definition of the comma deletion never lengthens the text |
| Repair.NoCommaRun | backend/routes/atoms.py:23 | characters other than commas are copied unchanged, in order |
| Repair.SubstituteIsFilter | backend/routes/atoms.py:23 | the left-to-right `re.sub` scanner equals the per-character reference definition |
| Repair.FixJsonSyntaxDeletesDanglingCommas | backend/routes/atoms.py:21-23 | `fix_json_syntax` deletes exactly the commas followed, after optional whitespace, by `}` or `]`, keeps everything else in order, and never lengthens the text |
| Repair.FixJsonSyntaxNotIdempotent | backend/routes/atoms.py:21-23 | one pass is not idempotent: `",,]"` becomes `",]"`, and a second pass gives `"]"` |
| Repair.StripFenceLine | backend/routes/atoms.py:55-56 | on one line, removing a leading fence and a trailing fence never lengthens the line or adds characters |
| Repair.MapLines | backend/routes/atoms.py:55-56 | every line is fence-stripped on its own, in order |
| Repair.SplitJoin | backend/routes/atoms.py:55-56 | joining lines and splitting them again at the same separator gives the lines back |
| Repair.SplitNoSep | backend/routes/atoms.py:55-56 | a text without the separator is a single line |
| Repair.StripFencesPerLine | backend/routes/atoms.py:55-56 | multiline fence stripping keeps the line structure: line i of the result is line i of the input with its fences removed |
| Repair.StripJsonFence | backend/routes/graph.py:74-77 | a stripped reply without either fence is returned as is; a leading "```json" alone is removed and the rest stripped; a trailing "```" alone is removed and the rest stripped; the result is never longer than the reply |
| Repair.StripJsonFenceUnwraps | backend/routes/graph.py:74-77 | a reply fenced as "```json", newline, payload, newline, "```" gives back exactly the payload when the payload has no edge whitespace |
| Repair.StripJsonFenceKeepsBareFence | backend/routes/graph.py:74-77 | only a leading "```json" is removed: a bare leading "```" stays |
| Atoms.Lined | backend/routes/atoms.py:31-36 | the chunk buffer of a group ends in a newline and is at least as long as the group |
| Atoms.StripEach | backend/routes/atoms.py:33 | every finished buffer is stored stripped, in order |
| Atoms.LinedSnoc | backend/routes/atoms.py:36 | appending a line grows the buffer by the line and one newline |
| Atoms.PackKeepsLines | backend/routes/atoms.py:28-36 | packing never splits or reorders lines: the finished groups followed by the open one are the input lines |
| Atoms.PackBound | backend/routes/atoms.py:32-36 | no finished group is empty, and every group is one line or its buffer is at most `chunk_size + 1` characters |
| Atoms.GroupChunkFits | backend/routes/atoms.py:32-33 | a flushed chunk is at most `chunk_size` characters unless it is a single longer line |
| Atoms.ChunksKeepLines | backend/routes/atoms.py:28-38 | the chunks are the stripped groups in order, all bounded as above, and only the last group is dropped, and only when blank |
| Atoms.SplitIntoChunks | backend/routes/atoms.py:28-38 | the packing loop computes exactly the chunk list of the specification |
| Atoms.StampShape | backend/routes/atoms.py:62-63 | a stamped atom keeps every field, gains an id only when it had none, and has its source file set |
| Atoms.StampAllShape | backend/routes/atoms.py:60-64 | stamping succeeds exactly when every item is a dict, and item i is stamped with the call's i-th fresh id |
| Atoms.AtomiseChunkShape | backend/routes/atoms.py:49-67 | a chunk's atoms are its reply's items, all dicts with an id and the chunk's source tag; any failure gives `[]` |
| Atoms.ChunkedAtomsTagged | backend/routes/atoms.py:40-46 | every atom of a chunked run carries "<file> (chunk k)" for the 1-based chunk k it came from, and chunk k's atoms come after chunk k-1's |
| Atoms.ChunkAndAtomise | backend/routes/atoms.py:26-46 | one model call per chunk, and the atoms are the per-chunk results concatenated in chunk order |
| Atoms.ValidAtomsShape | backend/routes/atoms.py:89-95 | the valid atoms are at most the items, there are none exactly when no item is a dict with "text", and each is such a dict with an id and the file as source |
| Atoms.RetryShape | backend/routes/atoms.py:76-108 | between one and three calls; every attempt but the last failed; after a JSON error the next prompt carries the first 10000 characters; the result is the last attempt's valid atoms, or none after three failures |
| Atoms.AtomiseWithRetry | backend/routes/atoms.py:75-108 | the retry loop computes exactly the retry specification |
| Atoms.RunAttempt | backend/routes/atoms.py:77-98 | one attempt is the model call, the cleanup and parse, then the item filter |
| Atoms.CollectAtoms | backend/routes/atoms.py:89-94 | the item loop keeps exactly the valid atoms, stamped |
| Atoms.AtomiserShape | backend/routes/atoms.py:70-118 | a text longer than 15000 characters takes the chunked path (one call per chunk); a shorter one makes one to three calls and never returns `[]`: after three failures it returns the single error atom |
| Atoms.RunAtomiser | backend/routes/atoms.py:70-118 | the route gets the atomiser result and the number of calls made |
| Atoms.AnnotateAtomShape | backend/routes/atoms.py:124-138 | the annotation has exactly the keys "insights" and "tags", taken from the reply (each `[]` when absent), and both are `[]` on any failure |
| Atoms.Enriched | backend/routes/atoms.py:189-191 | n atoms give n enriched atoms |
| Atoms.EnrichedAt | backend/routes/atoms.py:189-191 | enriched atom i is atom i annotated by model call start + i |
| Atoms.EnrichedKeepsAtoms | backend/routes/atoms.py:191 | annotation keeps every atom in order with all its fields; only insights and tags change |
| Atoms.FirstWithoutText | backend/routes/atoms.py:189-190 | the index of the first atom without a string text, `|atoms|` if none |
| Atoms.FirstWithoutTextAt | backend/routes/atoms.py:189-190 | the annotation loop stops at exactly that index |
| Atoms.LoadCleanText | backend/routes/atoms.py:156-165 | cached cleaned text is used as is; otherwise the raw PDF is extracted, normalised and written to the cleaned cache; neither file gives `None`; at most two model calls |
| Atoms.AtomiseUncached | backend/routes/atoms.py:156-172 | succeeds exactly when the cleaned text is cached or the raw PDF is present and extracts; otherwise 500 with no call and nothing written; on success the atoms are the atomiser's on that text and are written, with the cleaned text, to the cache |
| Atoms.AtomiseFile | backend/routes/atoms.py:141-172 | 400 for a non-PDF name or no project; a cache hit is returned with no model call and no write; a miss succeeds exactly when cleaned text or an extractable raw PDF exists, computes the atoms and writes them, and otherwise answers 500 with nothing written |
| Atoms.AnnotateAll | backend/routes/atoms.py:189-191 | the annotation loop makes one call per atom up to the first atom without text, and completes exactly when every atom has text |
| Atoms.AnnotateAtoms | backend/routes/atoms.py:175-197 | 400 without a project; the stored list on a hit; on a miss each atom annotated in order and written, or 500 with nothing written when an atom has no text |
| SharedUtils.PromptText | backend/shared_utils.py:41-43 | raw text over 50000 characters becomes its first 50000 plus the truncation note; shorter text is kept |
| SharedUtils.RunNormalizer | backend/shared_utils.py:39-60 | one or two calls; every call but the last was rejected (failed, or stripped length at most 10); the result is the stripped answer of the accepted call, or the failure banner followed by the prompt text |
| GraphBuilder.FallbackNodes | backend/main.py:101-110 | one fallback node per atom |
| GraphBuilder.EdgeTargetsShape | backend/main.py:112-116 | edge targets are strictly increasing, between 1 and n-1, and each shares a tag with its predecessor |
| GraphBuilder.FallbackNodeIds | backend/main.py:103-105 | node i is a dict whose id is atom i's id or "atom_i", with text cut to 100 characters plus "..." |
| GraphBuilder.FallbackEdgesShape | backend/main.py:112-123 | at most n-1 edges; each joins atom i-1 to atom i, is typed "shared_tag" with weight 0.5, and is labelled with a tag they share |
| GraphBuilder.CreateFallbackGraph | backend/main.py:96-132 | the loop builds the fallback graph: those nodes and edges, and empty clusters, themes, journey and facets |
| GraphBuilder.AtomsText | backend/main.py:57-60 | serialised atoms over 15000 characters are cut to 15000 and marked; shorter text is kept |
| GraphBuilder.WithListFieldsShape | backend/main.py:77-80 | a model graph keeps every field except a non-list "nodes" or "edges", which becomes `[]` |
| GraphBuilder.GraphBuiltHasLists | backend/main.py:64-93 | every graph the builder returns has list-valued "nodes" and "edges" |
| GraphBuilder.RunGraphBuilder | backend/main.py:54-93 | one or two calls on the serialised, truncated loaded value; the first reply that parses to a dict, with its lists defaulted; after two failures the fallback graph, which exists exactly when the value is a list of dicts |
| GraphBuilder.AtomDicts | backend/main.py:31-32 | each loaded item is read as a dict |
| GraphBuilder.BuildGraph | backend/main.py:16-51 | 400 without a filename; 404 without annotated atoms; the empty graph, not cached, for a falsy value; a cached graph with no model call; otherwise the model is asked about any truthy value and the built graph is written, or 500 with nothing written when the fallback raises |
| PairGraph.SharedInsights | backend/routes/graph.py:15-19 | the shared pairs are exactly the (type, label) pairs both nodes carry |
| PairGraph.SharedInsightsSymmetric | backend/routes/graph.py:15-19 | sharing is symmetric |
| PairGraph.IncreasingAppend | backend/routes/graph.py:35-36 | two increasing runs, the first before the second, make one |
| PairGraph.PairsNext | backend/routes/graph.py:37-38 | one inner step appends (i, j) exactly when the nodes share an insight |
| PairGraph.RowPairsBounded | backend/routes/graph.py:36 | row i up to j holds at most j-i-1 pairs, each (i, c) with i < c < j |
| PairGraph.RowPairsLinked | backend/routes/graph.py:37-38 | row i holds only partners linked to i |
| PairGraph.RowPairsOrdered | backend/routes/graph.py:36 | row i lists its partners in increasing order |
| PairGraph.RowPairsComplete | backend/routes/graph.py:36-38 | row i misses no linked partner |
| PairGraph.PairsBeforeBounded | backend/routes/graph.py:35-36 | the rows before i hold pairs (a, b) with a < i and a < b < n only |
| PairGraph.PairsBeforeLinked | backend/routes/graph.py:37-38 | the rows before i hold only linked pairs |
| PairGraph.PairsBeforeOrdered | backend/routes/graph.py:35-36 | the rows before i are in strictly increasing lexicographic order |
| PairGraph.PairsBeforeComplete | backend/routes/graph.py:35-38 | the rows before i miss no linked pair |
| PairGraph.TriangleStep | backend/routes/graph.py:35-36 | one more row keeps the triangle count |
| PairGraph.PairsBeforeLength | backend/routes/graph.py:35-36 | the rows before i hold at most i(2n-i-1)/2 pairs |
| PairGraph.LinkedPairsShape | backend/routes/graph.py:35-45 | the loops visit each linked pair i < j exactly once, in lexicographic order, so there are at most n(n-1)/2 edges |
| PairGraph.EdgesForSnoc | backend/routes/graph.py:39-45 | appending the edge of (i, j) extends the edge list of the pairs |
| PairGraph.CheckReadable | backend/routes/graph.py:17-18 | reading the insight lists succeeds exactly when every node's insights are readable |
| PairGraph.CoveredHaveIds | backend/routes/graph.py:41-42 | once the edges of the rows before i exist, every linked node of those rows has an id |
| PairGraph.PairStep | backend/routes/graph.py:37-45 | one inner step appends the edge of (i, j) when linked and fails exactly when a linked node has no id |
| PairGraph.RowEdges | backend/routes/graph.py:36-45 | one row appends the edges of its linked pairs and fails exactly when one of them lacks an id |
| PairGraph.PairEdges | backend/routes/graph.py:33-45 | the loops succeed exactly when the graph is computable, and then each edge has source `nodes[i]["id"]`, target `nodes[j]["id"]`, weight 1 and the shared pair's type as label |
| PairGraph.BuildPairGraph | backend/routes/graph.py:22-60 | 400 without a project; a cached graph is returned unchanged and not rewritten; 500 when the loops raise; otherwise the atoms unchanged as nodes plus the pair edges, written to the cache |
| PairGraph.InitialThemes | backend/routes/graph.py:66-82 | one call; a reply that parses after the "```json"/"```" stripping is returned as parsed; a failed call or parse gives `[]` |
| PairGraph.EnhanceGraph | backend/routes/graph.py:85-112 | no call and `[]` when "nodes" is missing or falsy; otherwise one call, whose reply is returned as parsed when it parses, and `[]` on failure |
| Upload.SavedShape | backend/routes/upload.py:25-31 | saving writes only upload keys, keeps every other file, and keeps the last upload of each name |
| Upload.UploadPdfs | backend/routes/upload.py:22-35 | every upload is written to the project's upload folder in order, and the answer counts and lists the saved names |
| Upload.NormalizeFile | backend/routes/upload.py:38-62 | 400 for a non-PDF name, in any case; a cached cleaned text with no call; 404 without the upload; 500 when extraction raises; otherwise the normalised text, written to the cleaned artifact |
| Upload.FilesInProject | backend/routes/upload.py:81-91 | one entry per PDF upload, whose flags are the existence of its four stage artifacts |
| Upload.ListProjects | backend/routes/upload.py:65-96 | a project is listed exactly when its upload folder holds a PDF, and then with the flags of each PDF |
| Upload.GetCached | backend/routes/upload.py:99-116 | 404 exactly for an unknown stage or a missing artifact; the cleaned text as plain text; any other present artifact is `Ok` with its parsed value when it parses and 500 when it does not |
| Upload.WithoutProjectShape | backend/routes/upload.py:125-126 | deleting keeps every file outside the project, unchanged, and no file inside it |
| Upload.WithoutProjectIdempotent | backend/routes/upload.py:125-127 | deleting an absent project changes nothing |
| Upload.DeleteProject | backend/routes/upload.py:119-127 | the project's files are removed and the answer is always ok |
| QualityGuard.VerdictConsistent | backend/quality_guard.py:60-96 | a check built from a verdict passes exactly when the verdict is true, is "info" exactly then, and scores in [0, 1] |
| QualityGuard.EvidenceCheckShape | backend/quality_guard.py:60-79 | a theme's evidence check passes exactly with two items or more, is critical exactly when it fails, and scores min(1, n/3) |
| QualityGuard.ThemeDiversityCheckShape | backend/quality_guard.py:60-96 | a theme's diversity check passes exactly with two distinct speakers or more ("unknown" when missing); a failure is a warning |
| QualityGuard.PairedAt | backend/quality_guard.py:58-96 | the per-theme loop yields two checks per theme, in theme order |
| QualityGuard.EvidenceChecksAt | backend/quality_guard.py:55-98 | theme i's evidence check is check 2i and its diversity check is check 2i+1 |
| QualityGuard.ValidateEvidenceSufficiency | backend/quality_guard.py:55-98 | the loop computes exactly those checks |
| QualityGuard.DuplicatesCount | backend/quality_guard.py:109-124 | every quote is either the first of its kind or a duplicate: total = unique + duplicates |
| QualityGuard.DuplicatesEmptyIff | backend/quality_guard.py:109-119 | there are no duplicates exactly when all quotes differ |
| QualityGuard.CollectQuotes | backend/quality_guard.py:104-106 | the quote list is each theme's evidence in turn |
| QualityGuard.ScanDuplicates | backend/quality_guard.py:109-115 | the scan with a seen set collects exactly the repeated occurrences |
| QualityGuard.UniquenessCheck | backend/quality_guard.py:117-132 | the uniqueness check is consistent and named "quote_uniqueness" |
| QualityGuard.UniquenessCheckShape | backend/quality_guard.py:104-132 | it passes exactly when no quote occurs twice across all themes |
| QualityGuard.ValidateQuoteUniqueness | backend/quality_guard.py:100-134 | the loops compute exactly that check |
| QualityGuard.ThemeSpeakers | backend/quality_guard.py:145-148 | one theme's participant set is the speakers of its atoms |
| QualityGuard.CollectSpeakers | backend/quality_guard.py:141-150 | the scan gives all speakers and each theme name's participant count |
| QualityGuard.ParticipantDiversityCheck | backend/quality_guard.py:153-168 | the overall diversity check is consistent |
| QualityGuard.AllSpeakersMembers | backend/quality_guard.py:141-150 | a speaker is counted exactly when some theme has an atom from them |
| QualityGuard.PerThemeLast | backend/quality_guard.py:144-161 | one entry per theme name, counting the speakers of the last theme with that name |
| QualityGuard.ParticipantDiversityCheckShape | backend/quality_guard.py:153-168 | it passes exactly with three distinct speakers or more |
| QualityGuard.ValidateParticipantDiversity | backend/quality_guard.py:136-170 | the loops compute exactly that check |
| QualityGuard.PhraseHitsEmptyIff | backend/quality_guard.py:189-198 | an insight has no hit exactly when none of the phrases occurs in it as words |
| QualityGuard.GenericCheck | backend/quality_guard.py:200-213 | the generic-statement check is consistent |
| QualityGuard.GenericCheckPassesIff | backend/quality_guard.py:176-213 | it passes exactly when no insight uses a cliche as words |
| QualityGuard.ScanInsight | backend/quality_guard.py:192-198 | one insight's hits, pattern by pattern |
| QualityGuard.ValidateGenericStatements | backend/quality_guard.py:172-215 | the loops compute exactly that check |
| QualityGuard.CausalCheck | backend/quality_guard.py:254-267 | the causal check is consistent |
| QualityGuard.CausalCheckPassesIff | backend/quality_guard.py:221-267 | it passes exactly when every theme with causal language has two atoms containing the pattern string |
| QualityGuard.ContainsFirstChar | backend/quality_guard.py:242-244 | a substring test needs the first character of the pattern |
| QualityGuard.SupportNeedsBackslash | backend/quality_guard.py:221-244 | since the pattern strings hold a literal backslash, only an atom whose text has one can support a claim |
| QualityGuard.UngroundedWithoutBackslash | backend/quality_guard.py:231-252 | a causal theme whose atoms hold no backslash always fails the check |
| QualityGuard.ValidateCausalStatements | backend/quality_guard.py:217-269 | the loops compute exactly that check |
| QualityGuard.PersonaMatchesEmptyIff | backend/quality_guard.py:286-295 | a description has no persona hit exactly when it contains none of the personas |
| QualityGuard.PersonaCheck | backend/quality_guard.py:297-310 | the persona check is consistent |
| QualityGuard.PersonaCheckPassesIff | backend/quality_guard.py:275-310 | it passes exactly when no description mentions a generic persona |
| QualityGuard.ScanDescription | backend/quality_guard.py:289-295 | one theme's persona hits, persona by persona |
| QualityGuard.ValidatePersonaClarity | backend/quality_guard.py:271-312 | the loops compute exactly that check |
| QualityGuard.IntegrityCheck | backend/quality_guard.py:332-345 | the integrity check is consistent |
| QualityGuard.IntegrityCheckPassesIff | backend/quality_guard.py:320-345 | it holds exactly when every theme has a name and evidence and every atom has text; otherwise it is critical |
| QualityGuard.ValidateDataIntegrity | backend/quality_guard.py:314-347 | the loops compute exactly that check |
| QualityGuard.MissingMembers | backend/quality_guard.py:353-361 | a type is missing exactly when it is required and no element's `metadata.type` has it, in required order |
| QualityGuard.BoardCheck | backend/quality_guard.py:363-375 | the board check is consistent |
| QualityGuard.BoardCheckPassesIff | backend/quality_guard.py:353-375 | it passes exactly when all four required types occur |
| QualityGuard.ValidateBoardCompleteness | backend/quality_guard.py:349-377 | the loops compute exactly that check |
| QualityGuard.Partition | backend/quality_guard.py:382-384 | with consistent checks, each check is exactly one of critical issue, warning or info |
| QualityGuard.ScoreSumBounds | backend/quality_guard.py:386 | the score sum lies in [0, number of checks] |
| QualityGuard.ReportCounts | backend/quality_guard.py:392-399 | passed + failed = total, and critical issues + warnings + info = total |
| QualityGuard.ReportScore | backend/quality_guard.py:386 | the overall score is the mean of the scores, 0.0 with no checks, and lies in [0, 1] |
| QualityGuard.ReportStatus | backend/quality_guard.py:391 | the status is FAILED exactly when some check failed critically |
| QualityGuard.RecommendationsIff | backend/quality_guard.py:407-418 | a recommendation is reported exactly when some failing non-info check makes it, once |
| QualityGuard.NextStepsClean | backend/quality_guard.py:420-440 | the two "meets standards" steps are given exactly when there is no critical issue and no warning |
| QualityGuard.EvidenceChecksConsistent | backend/quality_guard.py:55-98 | every per-theme check is consistent |
| QualityGuard.ConsistentAppend | backend/quality_guard.py:34-48 | appending consistent checks to consistent checks keeps the list consistent |
| QualityGuard.AllChecksConsistent | backend/quality_guard.py:34-48 | every check of the full validation is "info" exactly when passed and scores in [0, 1] |
| QualityGuard.FixedChecks | backend/quality_guard.py:36-48 | the seven checks after the per-theme ones are consistent and named, in order, quote uniqueness, participant diversity, generic, causal, persona, data integrity, board completeness |
| QualityGuard.AllChecksOrder | backend/quality_guard.py:36-48 | the full validation has 2 per theme + 7 checks, the last seven by name in source order |
| QualityGuard.RunFullValidation | backend/quality_guard.py:30-53 | the report is the report of all checks, in that order |
| HumanCheckpoints.ConflictRowMembers | backend/human_checkpoints.py:160-172 | the inner loop records exactly the later themes overlapping theme i |
| HumanCheckpoints.ConflictsBeforeMembers | backend/human_checkpoints.py:159-172 | the outer loop up to n records exactly the overlapping pairs whose first theme is before n |
| HumanCheckpoints.ConflictsMembers | backend/human_checkpoints.py:155-174 | the conflicts are exactly the pairs i < j whose atom sets intersect, with the intersection and its size |
| HumanCheckpoints.ConflictsOfTheme | backend/human_checkpoints.py:160-172 | the inner loop computes one row of conflicts |
| HumanCheckpoints.IdentifyConflictingThemes | backend/human_checkpoints.py:155-174 | the loops compute exactly the conflicts |
| HumanCheckpoints.SumCountsAdd | backend/human_checkpoints.py:180-182 | counting one more atom adds one to its speaker's count |
| HumanCheckpoints.SumCountsTotal | backend/human_checkpoints.py:180-185 | the per-speaker counts add up to the number of atoms |
| HumanCheckpoints.NoDuplicatesCount | backend/human_checkpoints.py:180-182 | each speaker key occurs once |
| HumanCheckpoints.UnderrepresentedAmongMembers | backend/human_checkpoints.py:186-190 | the comprehension keeps exactly the speakers below half the mean |
| HumanCheckpoints.UnderrepresentedMembers | backend/human_checkpoints.py:176-192 | a speaker is listed exactly when count * 2 * speakers < atoms, i.e. below half the mean; none without atoms |
| HumanCheckpoints.HalfMean | backend/human_checkpoints.py:185-189 | `c < (n / k) * 0.5` over the reals is `2ck < n` over the naturals |
| HumanCheckpoints.CountSpeakers | backend/human_checkpoints.py:179-182 | the counting loop gives each speaker's count and the keys in insertion order |
| HumanCheckpoints.IdentifyUnderrepresentedVoices | backend/human_checkpoints.py:176-192 | the method computes exactly the underrepresented speakers |
| HumanCheckpoints.ThreeDistinct | backend/human_checkpoints.py:209 | three values form a three-element set exactly when they are pairwise different |
| HumanCheckpoints.UsesShape | backend/human_checkpoints.py:197-202 | a tag's uses are its annotations, and there are some exactly when the tag occurs |
| HumanCheckpoints.InconsistentAmongMembers | backend/human_checkpoints.py:204-214 | the second loop keeps exactly the spread-out tags |
| HumanCheckpoints.InconsistenciesMembers | backend/human_checkpoints.py:194-216 | a tag is reported exactly when used more than five times with three different first contexts, once, with all its annotations |
| HumanCheckpoints.GroupByTag | backend/human_checkpoints.py:197-202 | the grouping loop gives each tag's uses and the keys in insertion order |
| HumanCheckpoints.IsSpreadOut | backend/human_checkpoints.py:206-209 | the per-tag test: more than five uses and three different first contexts |
| HumanCheckpoints.IdentifyInconsistentTagging | backend/human_checkpoints.py:194-216 | the loops compute exactly the inconsistencies |
| HumanCheckpoints.MatchesAnyPattern | backend/human_checkpoints.py:233-237 | the inner loop finds a match exactly when some pattern matches |
| HumanCheckpoints.IdentifyGenericStatements | backend/human_checkpoints.py:218-239 | the loops compute exactly the generic insights |
| HumanCheckpoints.GenericStatementsMembers | backend/human_checkpoints.py:218-239 | every generic insight is reported once, in input order, and nothing else |
| HumanCheckpoints.GroupsRanked | backend/human_checkpoints.py:50-80 | three groups, each of one kind and rank, in increasing rank, are ranked |
| HumanCheckpoints.ClarityDraftsIn | backend/human_checkpoints.py:50-58 | clarity questions are theme questions of the first group |
| HumanCheckpoints.ConflictDraftsIn | backend/human_checkpoints.py:60-69 | conflict questions are theme questions of the second group |
| HumanCheckpoints.ThemeQuestionsCount | backend/human_checkpoints.py:45-82 | one question per unclear theme, one per conflict, plus one exactly when some speaker is underrepresented |
| HumanCheckpoints.ThemeQuestionsOrder | backend/human_checkpoints.py:45-82 | clarity questions, then conflict questions, then at most one voices question, all theme-QA checkpoints |
| HumanCheckpoints.ThemeQuestionsMembers | backend/human_checkpoints.py:45-82 | one clarity question per theme with fewer than three atoms, one per conflicting pair, and the voices question exactly when someone is underrepresented |
| HumanCheckpoints.GenerateThemeQuestions | backend/human_checkpoints.py:45-82 | the method builds exactly those questions |
| HumanCheckpoints.AnnotationQuestionsOrder | backend/human_checkpoints.py:84-110 | low-confidence questions, each quoting at most 100 characters, then inconsistent-tag questions |
| HumanCheckpoints.LowConfidenceDraftsIn | backend/human_checkpoints.py:88-97 | low-confidence questions are of the first group and quote at most 100 characters |
| HumanCheckpoints.InconsistentDraftsIn | backend/human_checkpoints.py:99-108 | inconsistent-tag questions are of the second group |
| HumanCheckpoints.AnnotationQuestionsMembers | backend/human_checkpoints.py:84-110 | one question per annotation with confidence below 0.7 and one per inconsistent tag |
| HumanCheckpoints.GenerateAnnotationQuestions | backend/human_checkpoints.py:84-110 | the method builds exactly those questions |
| HumanCheckpoints.PiiQuestions | backend/human_checkpoints.py:112-125 | one question per detection |
| HumanCheckpoints.PiiQuestionsAt | backend/human_checkpoints.py:112-125 | question i is a PII verification about detection i's type and original text, so the questions follow the detections in order |
| HumanCheckpoints.GeneratePiiQuestions | backend/human_checkpoints.py:112-125 | the loop builds exactly those questions |
| HumanCheckpoints.FinalReviewQuestionsOrder | backend/human_checkpoints.py:127-153 | weak-evidence questions in theme order, then generic-insight questions |
| HumanCheckpoints.FinalReviewQuestionsMembers | backend/human_checkpoints.py:127-153 | exactly one question per theme with fewer than two evidence items; every generic insight gets a question |
| HumanCheckpoints.GenerateFinalReviewQuestions | backend/human_checkpoints.py:127-153 | the method builds exactly those questions |
| HumanCheckpoints.Question.constructor | backend/human_checkpoints.py:19-34 | a new question is unanswered and created at the given time |
| HumanCheckpoints.NewQuestions | backend/human_checkpoints.py:19-34 | one fresh unanswered question object per draft, in order |
| HumanCheckpoints.PendingMembers | backend/human_checkpoints.py:286-288 | exactly the questions without an answer are pending |
| HumanCheckpoints.PendingConcat | backend/human_checkpoints.py:286-288 | the pending filter keeps order across concatenation |
| HumanCheckpoints.FirstWithId | backend/human_checkpoints.py:292-293 | the position of the first question with the id, or the length |
| HumanCheckpoints.FindQuestion | backend/human_checkpoints.py:292-296 | the search loop stops at that position |
| HumanCheckpoints.Target | backend/human_checkpoints.py:292-296 | the updated question is the first one with the id, if any |
| HumanCheckpoints.CheckpointManager.constructor | backend/human_checkpoints.py:39-43 | a manager over the project with the stored questions |
| HumanCheckpoints.CheckpointManager.SaveQuestions | backend/human_checkpoints.py:241-243 | the list is extended by the argument |
| HumanCheckpoints.CheckpointManager.GetPendingQuestions | backend/human_checkpoints.py:286-288 | the pending questions, in order |
| HumanCheckpoints.CheckpointManager.AnswerQuestion | backend/human_checkpoints.py:290-299 | only the first question with the id records the answer and the time; no other question changes; the list doubles because it is saved onto itself |
| BoardCreator.FamilyOfId | backend/board_creator.py:174-383 | each element id belongs to the family its prefix names |
| BoardCreator.SplitAtUnderscore | backend/board_creator.py:265 | "u_v" splits back at the underscore when u is all digits |
| BoardCreator.NumberedInjective | backend/board_creator.py:174 | a fixed prefix followed by a number determines the number |
| BoardCreator.PairInjective | backend/board_creator.py:265 | "theme_quote_i_j" determines i and j |
| BoardCreator.IdTextInjective | backend/board_creator.py:142-145 | the six key families have distinct prefixes and numbers print injectively, so different ids never collide |
| BoardCreator.SectionId | backend/board_creator.py:174 | a section id is its prefix followed by the index |
| BoardCreator.IndexedKeys | backend/board_creator.py:173-209 | a section holds exactly one element per item, keyed by its position |
| BoardCreator.IndexedAt | backend/board_creator.py:173-183 | item k is placed under its own key |
| BoardCreator.PlaceAll | backend/board_creator.py:296-324 | the shared placement loop builds exactly that section |
| BoardCreator.PainColor | backend/board_creator.py:177-181 | red, yellow and green map to their colours, anything else to "#ffaa44" |
| BoardCreator.JourneyLayout | backend/board_creator.py:167-197 | step i sits at (150, 150 + 80i) with label defaulting to "Step i+1", and steps do not overlap |
| BoardCreator.CreateJourneyMap | backend/board_creator.py:163-211 | empty without a journey; otherwise the laid-out steps |
| BoardCreator.ThemeColor | backend/board_creator.py:411-420 | the colour is always one of the palette |
| BoardCreator.ThemeQuotes | backend/board_creator.py:264 | a cluster shows the first five of its theme's atoms |
| BoardCreator.ClustersApart | backend/board_creator.py:222-229 | cluster i sits at (600 + 220(i mod 3), 150 + 170(i div 3)) and clusters do not overlap |
| BoardCreator.QuoteStickiesInCluster | backend/board_creator.py:264-279 | a cluster's quote stickies lie inside it without overlapping, and a quote over 50 characters shows 50 plus "..." |
| BoardCreator.MergeSize | backend/board_creator.py:142-145 | merging maps with disjoint keys adds their sizes |
| BoardCreator.StickyMapKeys | backend/board_creator.py:264-266 | cluster i holds one sticky per quote, keyed "theme_quote_i_j" |
| BoardCreator.StickyMapValues | backend/board_creator.py:264-279 | sticky j carries quote j's element |
| BoardCreator.ClusterMapKeys | backend/board_creator.py:222-284 | the clusters' map holds one box per theme and one sticky per shown quote |
| BoardCreator.ClusterMapBoxes | backend/board_creator.py:223-260 | each box carries its theme's element |
| BoardCreator.ClusterMapSticky | backend/board_creator.py:264-284 | each sticky carries its quote's element |
| BoardCreator.QuoteStickyList | backend/board_creator.py:264-279 | the stickies of cluster i, one per shown quote |
| BoardCreator.ThemeCluster | backend/board_creator.py:222-279 | theme i's cluster is its box and its stickies |
| BoardCreator.ThemeClusters | backend/board_creator.py:222-284 | one cluster per theme, numbered by position |
| BoardCreator.ThemeClustersAt | backend/board_creator.py:222-284 | cluster i is theme i's cluster |
| BoardCreator.QuoteCountStickies | backend/board_creator.py:264-265 | the stickies number the sum of the shown quotes |
| BoardCreator.ThemeClusterKeys | backend/board_creator.py:213-286 | one cluster per theme and one sticky per shown quote, so the element count is themes plus stickies |
| BoardCreator.ThemeClusterBox | backend/board_creator.py:223-260 | each cluster carries the element its theme produces |
| BoardCreator.ThemeClusterSticky | backend/board_creator.py:264-284 | each sticky carries the element its quote produces |
| BoardCreator.QuoteStickies | backend/board_creator.py:264-279 | the inner loop builds exactly cluster i's stickies |
| BoardCreator.CreateThemeClusters | backend/board_creator.py:213-286 | the loops build exactly the clusters' map |
| BoardCreator.QuoteBankLayout | backend/board_creator.py:296-312 | quote i sits at (1500, 150 + 60i) without overlap; text over 100 characters shows 100 plus "..." |
| BoardCreator.PainCardsOf | backend/board_creator.py:437-446 | the cards for one theme, one per pain point |
| BoardCreator.PainCardsOfShape | backend/board_creator.py:439-446 | each of a theme's cards is high priority and linked to its pain point |
| BoardCreator.PainCardsShape | backend/board_creator.py:437-446 | every generated card is a high-priority card for one pain point |
| BoardCreator.OpportunitiesShape | backend/board_creator.py:422-448 | opportunities are the "opportunity" insights in order, followed by one high-priority card per pain point per theme |
| BoardCreator.AppendPainCards | backend/board_creator.py:439-446 | the inner loop appends one theme's cards |
| BoardCreator.AppendThemePainCards | backend/board_creator.py:437-446 | the theme loop appends every theme's cards |
| BoardCreator.PainCardsSnoc | backend/board_creator.py:437-446 | the next theme's cards follow the ones already made |
| BoardCreator.ExtractOpportunities | backend/board_creator.py:422-448 | the loops compute exactly the opportunities |
| BoardCreator.OpportunityLayout | backend/board_creator.py:339-347 | card i sits at (100 + 220i, 750) and cards do not overlap |
| BoardCreator.OpenQuestionsShape | backend/board_creator.py:450-461 | only "question" insights, one each, in order, with priority "medium" by default |
| BoardCreator.ExtractOpenQuestions | backend/board_creator.py:450-461 | the loop computes exactly the open questions |
| BoardCreator.QuestionLayout | backend/board_creator.py:382-388 | question i sits at (100 + 250i, 50) and questions do not overlap |
| BoardCreator.BoardUrlInjective | backend/board_creator.py:485-487 | the url is "/boards/<slug>/<board_id>", and a slug without "/" and the id can be read back from it |
| BoardCreator.SplitAtSlash | backend/board_creator.py:487 | "u/v" splits back at the first slash when u has none |
| BoardCreator.MergeFive | backend/board_creator.py:142-145 | the five parts merge over disjoint key families |
| BoardCreator.IndexedFamily | backend/board_creator.py:174-383 | an indexed section's keys lie in its family |
| BoardCreator.ClusterFamily | backend/board_creator.py:223-265 | the clusters' keys lie in the cluster families |
| BoardCreator.IndexedSize | backend/board_creator.py:173-209 | an indexed section has one element per item |
| BoardCreator.ThemeClusterCount | backend/board_creator.py:213-286 | the clusters' map has themes plus stickies elements |
| BoardCreator.BoardElementCount | backend/board_creator.py:127-145 | the merge loses nothing: one element per step, theme, shown quote, atom, opportunity and open question |
| BoardCreator.BoardKeepsParts | backend/board_creator.py:142-145 | each part's elements appear on the board unchanged |
| BoardCreator.BoardQuote | backend/board_creator.py:297-299 | atom k of the quote bank is on the board as "quote_k" |
| BoardCreator.BoardCluster | backend/board_creator.py:223-234 | theme k's cluster is on the board as "theme_cluster_k" |
| BoardCreator.CreateBoard | backend/board_creator.py:97-161 | the board holds the merge of the five parts, its layout, and the url of its id |
| ChatAssistant.FirstIntentIsFirst | backend/chat_assistant.py:131-136 | the detected intent is the first in table order with a matching pattern, and "general_question" exactly when none matches |
| ChatAssistant.DetectIntent | backend/chat_assistant.py:94-136 | the two loops return exactly that intent |
| ChatAssistant.NamedTheme | backend/chat_assistant.py:382-387 | the first context theme whose lower-cased name occurs in the lower-cased message |
| ChatAssistant.FirstCapture | backend/chat_assistant.py:389-399 | the first name pattern that captures a word |
| ChatAssistant.ThemeNamePreference | backend/chat_assistant.py:380-401 | a named context theme wins; otherwise the first capture; otherwise none |
| ChatAssistant.ThemeCalled | backend/chat_assistant.py:182 | the first theme whose lower-cased name equals the extracted name |
| ChatAssistant.ThemeSuggestionsMembers | backend/chat_assistant.py:228-235 | one theme's suggestions: the evidence line when n < 2 and the generic line when its description has a listed phrase |
| ChatAssistant.SuggestionsMembers | backend/chat_assistant.py:226-235 | a theme with n < 2 items gets exactly the line asking for 2-n quotes, a generic description the line to be specific, and nothing else |
| ChatAssistant.SuggestionsAskForFewQuotes | backend/chat_assistant.py:229-230 | every evidence suggestion asks for one or two more quotes |
| ChatAssistant.SuggestFor | backend/chat_assistant.py:228-235 | the loop body for one theme |
| ChatAssistant.CollectSuggestions | backend/chat_assistant.py:226-235 | the loop computes exactly the suggestions |
| ChatAssistant.RelevantQuotesShape | backend/chat_assistant.py:269-275 | at most three quotes, each from an atom mentioning a word of the theme name |
| ChatAssistant.GenerateResponseDispatch | backend/chat_assistant.py:138-161 | the response comes from the responder of the detected intent, exactly one, and only the explain responder can fail |
| ChatAssistant.MessageTopics | backend/chat_assistant.py:418-430 | the topics one message raises |
| ChatAssistant.TopicsOfMembers | backend/chat_assistant.py:416-432 | a topic is listed exactly when some message raises it, once |
| ChatAssistant.ExtractTopics | backend/chat_assistant.py:414-432 | the loop computes exactly the topics, a duplicate-free subset of the five |
| ChatAssistant.RoleCounts | backend/chat_assistant.py:406-408 | user and assistant messages are disjoint, so they count at most the total |
| ChatAssistant.SummaryOf | backend/chat_assistant.py:403-411 | total, user and assistant counts, and no last interaction for an empty history |
| ChatAssistant.SummaryAfterExchange | backend/chat_assistant.py:70-89 | one exchange adds one user and one assistant message and sets the last interaction |
| ChatAssistant.Assistant.constructor | backend/chat_assistant.py:26-36 | a new assistant with the stored history and an empty context |
| ChatAssistant.Assistant.ProcessMessage | backend/chat_assistant.py:66-89 | the context is merged over, the user message with the context is recorded, and on success one assistant message with the rendered response follows |
| ChatAssistant.Assistant.GetConversationSummary | backend/chat_assistant.py:403-411 | the summary of the history, with the topics collected by the loop |
| DropZone.DropSeparators | backend/dropzone.py:96 | drops a leading run of separators |
| DropZone.Collapse | backend/dropzone.py:96 | each run of hyphens or whitespace becomes one hyphen: no whitespace, no "--", a leading hyphen exactly when the input starts with a separator |
| DropZone.LStripHyphens | backend/dropzone.py:97 | drops the leading hyphens |
| DropZone.RStripHyphens | backend/dropzone.py:97 | drops the trailing hyphens |
| DropZone.StripHyphensSlice | backend/dropzone.py:97 | stripping keeps a contiguous middle part |
| DropZone.KeptChars | backend/dropzone.py:94-95 | after lowering and the deletion only lower-case word characters and separators remain |
| DropZone.CollapseAlphabet | backend/dropzone.py:96 | collapsing them leaves only slug characters |
| DropZone.CleanSlice | backend/dropzone.py:97 | a middle part without edge hyphens and doubled hyphens is clean |
| DropZone.SlugIsClean | backend/dropzone.py:92-97 | every slug has only word characters and single interior hyphens |
| DropZone.CollapseCleanIsIdentity | backend/dropzone.py:96 | collapsing a clean string changes nothing |
| DropZone.CleanSlugIsFixed | backend/dropzone.py:92-97 | a clean string is its own slug |
| DropZone.SlugIdempotent | backend/dropzone.py:92-97 | slugging a slug changes nothing |
| DropZone.CollapseKeeps | backend/dropzone.py:96 | collapsing keeps every non-separator character |
| DropZone.StripKeeps | backend/dropzone.py:97 | stripping hyphens keeps every other character |
| DropZone.HyphensStripToEmpty | backend/dropzone.py:97 | a string of hyphens strips to nothing |
| DropZone.SlugKeepsWordChar | backend/dropzone.py:92-97 | a word character of the name survives, lowered, into the slug |
| DropZone.SlugOfNoWordChars | backend/dropzone.py:92-97 | a name without word characters has the empty slug |
| DropZone.SlugEmptyIff | backend/dropzone.py:92-97 | the slug is empty exactly when the name has no word character, and is then accepted |
| DropZone.ProjectPath | backend/dropzone.py:88-90 | base/slug/stage, stage "raw" by default |
| DropZone.ProjectPathInjective | backend/dropzone.py:88-90 | different projects or stages never share a folder |
| DropZone.DropZoneManager.constructor | backend/dropzone.py:31-34 | the manager over the base path with the stored registry; it is `Valid` (every entry under its own slug) exactly when the stored registry is |
| DropZone.DropZoneManager.SaveProjectMetadata | backend/dropzone.py:111-115 | the entry is stored under its slug, replacing any earlier one |
| DropZone.DropZoneManager.MakeStageFolders | backend/dropzone.py:58-64 | each stage folder of the project exists afterwards |
| DropZone.DropZoneManager.CreateProject | backend/dropzone.py:36-68 | the metadata is active with no transcripts, the project and its seven stage folders exist, and the registry maps the slug to it, every other entry unchanged |
| DropZone.DropZoneManager.GetProject | backend/dropzone.py:70-73 | the registered entry, `None` for an unknown slug; in a `Valid` registry the entry found carries the slug asked for |
| DropZone.DropZoneManager.ListProjects | backend/dropzone.py:75-78 | every registered entry and nothing else |
| DropZone.DropZoneManager.UpdateProjectStatus | backend/dropzone.py:80-86 | only status and update time of an existing entry change; an unknown slug changes nothing |
| Comments.SafeFilename | backend/routes/comments.py:35 | every "/" and every "\" becomes "_", and nothing else changes |
| Comments.SafeFilenameKeepsPlainNames | backend/routes/comments.py:35 | a name without separators is kept |
| Comments.SafeFilenameIdempotent | backend/routes/comments.py:35 | making a name safe twice changes nothing more |
| Comments.CommentsFile | backend/routes/comments.py:34-36 | the comments file is `<project>/comments/<safe name>.json` |
| Comments.SharedCommentsFile | backend/routes/comments.py:34-36 | two transcripts of a project share a file exactly when their safe names agree, so "a/b" and "a_b" share one |
| Comments.AsWrittenStatus | backend/routes/comments.py:36 | as written, a request answers 400 without a project and 500 otherwise, because `get_path` does not exist |
| Comments.AsWrittenNeverSucceeds | backend/routes/comments.py:36 | as written, no request naming a project succeeds |
| Comments.CommentsOf | backend/routes/comments.py:71-75 | the comments under an exchange number, `None` when it has no entry |
| Comments.AppendComment | backend/routes/comments.py:71-75 | one comment more; the entry is created at the end when missing |
| Comments.AppendCommentTarget | backend/routes/comments.py:71-75 | the exchange gains the comment at the end of its list, which starts empty when it had none |
| Comments.AppendCommentOthers | backend/routes/comments.py:71-75 | every other exchange keeps its comments |
| Comments.AppendCommentDistinct | backend/routes/comments.py:71-72 | appending never creates a second entry for an exchange |
| Comments.Pruned | backend/routes/comments.py:91 | one exchange without the comments of the id |
| Comments.WithoutComment | backend/routes/comments.py:89-93 | every exchange pruned, in order |
| Comments.WithoutCommentAt | backend/routes/comments.py:89-93 | each exchange is pruned in place |
| Comments.PrunedShorterIff | backend/routes/comments.py:90-93 | pruning shortens a list exactly when it held the comment |
| Comments.DeleteRemovesAll | backend/routes/comments.py:89-96 | after a delete no comment has the id and no exchange is empty |
| Comments.DeleteKeepsOthers | backend/routes/comments.py:89-96 | every other comment survives under the same exchange |
| Comments.Tagged | backend/routes/comments.py:117-118 | an exchange's comments, each with the exchange number |
| Comments.TotalCountsAll | backend/routes/comments.py:113-131 | `total_comments` is the number of comments exported |
| Comments.ExportsEveryComment | backend/routes/comments.py:117-131 | every stored comment is exported with its exchange number |
| Comments.SynthesisPairs | backend/routes/comments.py:117-131 | insight i and quote i describe the same comment, and both counts equal the total |
| Comments.Loaded | backend/routes/comments.py:39-44 | the stored file, or an empty one naming the transcript |
| Comments.CommentStore.constructor | backend/routes/comments.py:39-51 | a store over the given files |
| Comments.CommentStore.Save | backend/routes/comments.py:47-51 | the contents, stamped with the update time, replace the file |
| Comments.CommentStore.GetComments | backend/routes/comments.py:54-61 | 400 exactly without a project; otherwise always `Ok` of the stored contents, or of an empty file naming the transcript when none is stored; nothing written |
| Comments.CommentStore.AddComment | backend/routes/comments.py:64-79 | 400 without a project; the stamped comment goes at the end of its exchange's list and the file is written |
| Comments.CommentStore.DeleteComment | backend/routes/comments.py:82-102 | 400 without a project; every comment with the id goes and empty exchanges are dropped; 404 with nothing written when none had it |
| Comments.CommentStore.ExportComments | backend/routes/comments.py:105-134 | 400 exactly without a project; otherwise always `Ok` of the synthesis of the stored (or empty) comments, built by one pass; nothing written |
| Comments.PruneAll | backend/routes/comments.py:89-93 | the delete loop prunes every exchange and reports whether some list got shorter |
| Comments.HasCommentSnoc | backend/routes/comments.py:89-93 | one more exchange holds the comment exactly when it or an earlier one does |
| Comments.ExportExchange | backend/routes/comments.py:117-131 | the next exchange's comments follow the ones already exported |
| Comments.AppendExchange | backend/routes/comments.py:118-131 | one insight and one quote per comment of the exchange |
| GraphStage.Prop | frontend/src/GraphStage.jsx:38-47 | reading a property throws exactly on `null` and `undefined` |
| GraphStage.EndpointId | frontend/src/GraphStage.jsx:38-48 | a link end's id is `.id` of an object end, the end itself otherwise; it throws exactly on a nullish link or a `null` end |
| GraphStage.SafeEndpointId | frontend/src/GraphStage.jsx:193-194 | the same id where reading cannot throw, agreeing with it wherever it is defined |
| GraphStage.InputEdges | frontend/src/GraphStage.jsx:18-19 | `edges` when it is an array, else `links` when that is one, else none |
| GraphStage.KeepLink | frontend/src/GraphStage.jsx:33-58 | as written: both ends are read before the link's shape is checked |
| GraphStage.FilterLinksSpec | frontend/src/GraphStage.jsx:33-58 | the filter throws exactly when some link throws, and otherwise keeps the links the callback accepts |
| GraphStage.FormatGraphData | frontend/src/GraphStage.jsx:13-66 | `null` exactly for a falsy graph |
| GraphStage.FormattedNodes | frontend/src/GraphStage.jsx:24-26 | the nodes returned are exactly the valid nodes |
| GraphStage.FormattedLinksResolve | frontend/src/GraphStage.jsx:29-58 | both ends of every returned link name a returned node |
| GraphStage.FormatThrowsIff | frontend/src/GraphStage.jsx:33-48 | the call throws exactly when the graph is truthy and some link is nullish or has a `null` end |
| GraphStage.NullEdgeThrows | frontend/src/GraphStage.jsx:33-48 | a graph with one node and a `null` edge throws instead of dropping the edge |
| GraphStage.FormatGraphDataChecked | frontend/src/GraphStage.jsx:13-66 | with the shape checked first, the formatter never throws |
| GraphStage.CheckedAgrees | frontend/src/GraphStage.jsx:33-58 | where the code as written returns, the corrected one returns the same graph |
| GraphStage.CheckedLinksResolve | frontend/src/GraphStage.jsx:29-58 | the corrected call drops bad links, and every end of a returned link names a returned node |
| GraphStage.FormattedIsReadable | frontend/src/GraphStage.jsx:62-65 | every formatted graph can be read by the neighbour and size code |
| GraphStage.FindById | frontend/src/GraphStage.jsx:207 | `undefined`, or a node with the id |
| GraphStage.FindByIdFirst | frontend/src/GraphStage.jsx:207 | the lookup returns the first node with the id |
| GraphStage.ConnectedNodesSound | frontend/src/GraphStage.jsx:184-213 | every neighbour is a graph node at the other end of a link touching the node |
| GraphStage.ConnectedNodesComplete | frontend/src/GraphStage.jsx:184-213 | a touching link whose other end is a truthy node contributes the first such node |
| GraphStage.Degree | frontend/src/GraphStage.jsx:294-298 | at most one per link |
| GraphStage.NodeVal | frontend/src/GraphStage.jsx:293-300 | three per touching link, never below 8 |
| GraphStage.NodeValCoversNeighbours | frontend/src/GraphStage.jsx:293-300 | a node is drawn at least three units per neighbour listed for it |

## Left out

- Network, file and process effects are not modelled beyond the abstract disk: logging, `print`, `time.sleep`, PDF extraction (a parameter that may fail), directory listing order, and the Supabase, Yjs and export calls of the board creator (`_save_to_supabase`, `_initialize_yjs_board`, `export_board`).
- Fresh uuids, `datetime.now()` and Python's string `hash` are parameters. The several clock reads of one comments request are one `now`.
- Python dict and set iteration order is not modelled. `list_projects` of the registry returns a set, `_extract_topics` a duplicate-free sequence, and recommendations their set.
- Regular expressions of the chat assistant are an abstract `search` and `capture`. The word-bounded patterns of the quality guard use ASCII word characters.
- `Text.Lower` lowers only the ASCII letters A-Z, where Python's `str.lower()` lowers every Unicode letter. This holds for every module that lowers text: `DropZone` (the slug), `Store.IsPdfName` (the ".pdf" test of the upload, atom and normalise routes), `ChatAssistant` (`DetectIntent`, `NamedTheme`, `ThemeCalled`, the generic-description test, `RelevantQuotes` and the topics), `QualityGuard` (the generic, causal and persona checks) and `HumanCheckpoints` (the generic-insight patterns). A theme named "Über" is not found by a message saying "über" in the model, where Python finds it. `\w` in the slug is ASCII too.
- Response wording (the suggestion, question and check texts) is a datatype holding the interpolated values, not the literal strings.
- History and registry files of the chat assistant, the checkpoint manager and the DropZone manager are not read or written. The constructors take the stored contents.
- HumanCheckpoints: `os` is never imported in human_checkpoints.py, so `__init__` and `save_questions` raise a NameError at run time. The model keeps only the in-memory list, and `load_existing_questions`, `confidence_score` and `run_human_checkpoint` are left out.
- Unhashable JSON values in set-based checks are not modelled (they raise in Python).
- Items that are not dicts where the source calls `.get` are read as empty (`AsDict`, theme name `""`), except where the source's failure is modelled (atomiser items, graph insights, JavaScript reads).
- Comments: a malformed comments file, and exchange keys that do not parse as integers (a 500 in `export_comments`), are not modelled; exchange keys are integers.
- Comments.Comment: `position` is a float in the source and a `real` here.
- DropZone.ProjectPath: for the accepted empty slug, pathlib drops the empty segment, so the project folder is the base folder itself and the stage folders are `base/raw` and so on; the model keeps an empty segment, `base + [""]`, which `CreateProject` also uses.
- DropZone.ProjectMetadata: the `settings` field is left out; folder creation is a set of created paths, and the manager's own `mkdir` of the base path is not modelled.
- BoardCreator: style constants (colours, fonts, sizes other than positions) are not part of the elements; a journey value that is not a list is read as no journey; `create_research_board` is left out.
- normalizer.py is not part of this model.
- GraphStage: JavaScript `===` is structural equality of values (no NaN, no object identity), the model-driven enhancement and React effects are left out, and `ConnectedNodes` and `NodeVal` take the node id and require a graph the formatter could return (`Readable`).
- BuildGraph, RunGraphBuilder: the loaded value is serialised with the model's `dumps` parameter, so `json.dumps(..., indent=1)` formatting is part of that parameter.
- FallbackNodeIds: a "text" that is not a string is passed through to the node; the source's `len(...)` (backend/main.py:105) raises on a number, null or bool, and its slicing or `+ "..."` raises on a long list or dict. The model's `NodeText` does not model that failure.
- FallbackEdgesShape: tags that are null, a number or a bool are read by `Members` as no tags; the source's `set(...)` (backend/main.py:115) raises on them. A truthy tag value on the current atom with such a value on the previous one is therefore not a failure in the model.
- QuoteStickiesInCluster: a quote that is not a string goes through `Shorten` unchanged; the source's `len(quote)` or `quote[:50] + "..."` (backend/board_creator.py:279) raises on a number or a long list.
- QuoteBankLayout: an atom text that is not a string goes through `Shorten` unchanged, where `len(...)` at backend/board_creator.py:312 raises.
- NameErrors in two route files are not modelled. backend/routes/graph.py never imports `HTTPException`, so its 400 for a missing project (:26) is a NameError and reaches the client as a 500. backend/main.py uses `ANNOTATED_DIR` (:26), `gemini_model` (:67) and `fix_json_syntax` (:72) without defining or importing them. `PairGraph.BuildPairGraph` (its 400), `GraphBuilder.BuildGraph` and `GraphBuilder.RunGraphBuilder` model the evidently intended behaviour: a 400, the annotated folder of the store, and the shared model and comma repair. As written, every `/graph-build` request that names a file answers 500, and the model call inside the retry loop would always fail.
- QualityGuard.Theme, QualityGuard.Atom, QualityGuard.Insight: the typed records read a missing "name" as `""`, and a description or text that is not a string as `""`. The source raises a KeyError on `theme['name']` (backend/quality_guard.py:66, :83, :150, :248, :292) and an AttributeError on `.lower()` of a value that is not a string (:191, :233, :243, :288). In particular a theme without "name" makes `run_full_validation` raise at the first evidence check (:66), where `RunFullValidation` returns a report whose integrity check flags `ThemeMissingName`.
- HumanCheckpoints.Theme, HumanCheckpoints.Annotation, HumanCheckpoints.Insight: the typed records read a missing "name", "id", "tag" or "text" as `""`. The source raises a KeyError there: `theme['name']` (backend/human_checkpoints.py:53, :135, :168), `annotation['id']`, `['tag']` and `['text']` (:92-95), and `insight['id']` and `['text']` (:146-148). The question generators of the model always return their questions.
- ChatAssistant: a theme dict without "name" is read as the name `""` by `NameOf` (used by `ThemeCalled`, `NamedTheme` and `SuggestionsMembers`), where `theme['name']` raises a KeyError (backend/chat_assistant.py:182, :230, :386). A name that is not a string is read as `""` too, where `.lower()` raises.

## Findings

| source | as written | input that shows it | evidently intended | confidence | as-written member | corrected member |
|---|---|---|---|---|---|---|
| backend/routes/comments.py:36 | `get_comments_file` calls `DropZoneManager(project_slug).get_path(...)`, a method the manager does not have, so every comments endpoint answers 500 once a project is given | any request with `project_slug = "p"` | the file `<project>/comments/<safe name>.json` of that project, read and written by the endpoints | not executed | Comments.AsWrittenNeverSucceeds | Comments.CommentStore.AddComment |
| frontend/src/GraphStage.jsx:33-48 | the link filter reads `link.source` and `link.target` before `hasValidStructure` is used, so a `null` link or a `null` end throws a TypeError instead of being filtered out | `{nodes: [{id: 1}], edges: [null]}` | the invalid link is dropped and the graph is returned | not executed | GraphStage.NullEdgeThrows | GraphStage.CheckedLinksResolve |
