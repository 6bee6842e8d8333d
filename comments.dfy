/**
 * Reviewer comments on transcript exchanges. Each transcript has one comments
 * file per project holding, per exchange, the list of comments made on it;
 * the endpoints read that file, add a comment, delete one by id, and export
 * all of them as insights and quotes for synthesis. The files are a map from
 * path to their parsed contents; the clock is a parameter.
 */
module Comments {
  import opened Wrappers
  import opened Text
  import opened Seqs

  // ---------------------------------------------------------------------------
  // The comments file
  // ---------------------------------------------------------------------------

  /** The file name with every `/` and then every `\` replaced by `_`. */
  function SafeFilename(filename: string): (r: string)
    ensures |r| == |filename|
    ensures forall i :: 0 <= i < |r| ==> r[i] != '/' && r[i] != '\\'
    ensures forall i :: 0 <= i < |r| ==>
      r[i] == if filename[i] == '/' || filename[i] == '\\' then '_' else filename[i]
  {
    var once := Replace(filename, "/", "_");
    ReplaceChar(filename, '/', '_');
    ReplaceChar(once, '\\', '_');
    Replace(once, "\\", "_")
  }

  /** A file name without separators is kept as it is. */
  lemma SafeFilenameKeepsPlainNames(filename: string)
    requires forall i :: 0 <= i < |filename| ==> filename[i] != '/' && filename[i] != '\\'
    ensures SafeFilename(filename) == filename
  {
  }

  /** Making a name safe twice changes nothing more. */
  lemma SafeFilenameIdempotent(filename: string)
    ensures SafeFilename(SafeFilename(filename)) == SafeFilename(filename)
  {
    SafeFilenameKeepsPlainNames(SafeFilename(filename));
  }

  /** The comments file of a transcript: `<project>/comments/<safe name>.json`. */
  function CommentsFile(projectSlug: string, filename: string): (p: seq<string>)
    ensures |p| == 3 && p[0] == projectSlug && p[1] == "comments"
  {
    [projectSlug, "comments", SafeFilename(filename) + ".json"]
  }

  /**
   * Two transcripts of one project share a comments file exactly when their
   * names agree once separators are replaced, so `a/b` and `a_b` share one.
   */
  lemma SharedCommentsFile(projectSlug: string, a: string, b: string)
    ensures CommentsFile(projectSlug, a) == CommentsFile(projectSlug, b) <==> SafeFilename(a) == SafeFilename(b)
  {
    if CommentsFile(projectSlug, a) == CommentsFile(projectSlug, b) {
      var x, y := SafeFilename(a) + ".json", SafeFilename(b) + ".json";
      assert x == CommentsFile(projectSlug, a)[2] == CommentsFile(projectSlug, b)[2] == y;
      assert |SafeFilename(a)| == |SafeFilename(b)|;
      assert SafeFilename(a) == x[..|x| - 5] == y[..|y| - 5] == SafeFilename(b);
    }
  }

  /** The methods the DropZone manager defines. */
  const ManagerMethods: set<string> := {"create_project", "get_project", "list_projects", "update_project_status",
    "get_project_path", "_generate_slug", "_load_projects", "_save_project_metadata", "_save_projects_metadata"}

  /**
   * The comments file as the code is written: it asks the manager for
   * `get_path`, which the manager does not define, so the lookup fails.
   */
  function AsWrittenCommentsFile(projectSlug: string, filename: string): Option<seq<string>>
  {
    if "get_path" in ManagerMethods then Some(CommentsFile(projectSlug, filename)) else None
  }

  /** The status every endpoint answers with, as written: 400 without a slug, else 500 from the failed lookup. */
  function AsWrittenStatus(projectSlug: string, filename: string): (status: nat)
    ensures status == 400 || status == 500 || status == 200
  {
    if projectSlug == "" then 400
    else if AsWrittenCommentsFile(projectSlug, filename).None? then 500
    else 200
  }

  /** As written, no request that names a project succeeds. */
  lemma AsWrittenNeverSucceeds(projectSlug: string, filename: string)
    requires projectSlug != ""
    ensures AsWrittenStatus(projectSlug, filename) == 500
  {
    assert "get_path" !in ManagerMethods;
  }

  // ---------------------------------------------------------------------------
  // Contents
  // ---------------------------------------------------------------------------

  /** A comment as the client sends it, plus the time the server stored it. */
  datatype Comment = Comment(id: int, text: string, selectedText: string, timestamp: string, position: real,
                             exchangeIndex: int, author: string, filename: string, created: string)

  /** The comments of one exchange, under the exchange's number. */
  datatype Exchange = Exchange(id: int, comments: seq<Comment>)

  datatype Metadata = Metadata(filename: string, created: string, updated: Option<string>)

  /** A comments file: the exchanges in the order they were first commented on, and metadata. */
  datatype CommentsDoc = CommentsDoc(exchanges: seq<Exchange>, metadata: Metadata)

  /** No exchange appears twice, as the keys of a dict. */
  predicate DistinctExchanges(exchanges: seq<Exchange>)
  {
    forall i, j :: 0 <= i < j < |exchanges| ==> exchanges[i].id != exchanges[j].id
  }

  /** The comments under an exchange number, `None` when it has no entry. */
  function CommentsOf(exchanges: seq<Exchange>, id: int): (r: Option<seq<Comment>>)
    ensures r.None? <==> forall i :: 0 <= i < |exchanges| ==> exchanges[i].id != id
  {
    if exchanges == [] then None
    else if exchanges[0].id == id then Some(exchanges[0].comments)
    else CommentsOf(exchanges[1..], id)
  }

  /**
   * `comments[exchange].append(comment)`, creating the entry at the end when
   * the exchange has none.
   */
  function AppendComment(exchanges: seq<Exchange>, id: int, comment: Comment): (r: seq<Exchange>)
    ensures |r| == |exchanges| + (if CommentsOf(exchanges, id).None? then 1 else 0)
    ensures forall i :: 0 <= i < |exchanges| ==> r[i].id == exchanges[i].id
    ensures CommentsOf(exchanges, id).None? ==> r[|exchanges|].id == id
  {
    if exchanges == [] then [Exchange(id, [comment])]
    else if exchanges[0].id == id then [exchanges[0].(comments := exchanges[0].comments + [comment])] + exchanges[1..]
    else [exchanges[0]] + AppendComment(exchanges[1..], id, comment)
  }

  /** The exchange gains the comment at the end of its list, which starts empty when it had none. */
  lemma {:induction false} AppendCommentTarget(exchanges: seq<Exchange>, id: int, comment: Comment)
    ensures CommentsOf(AppendComment(exchanges, id, comment), id) == Some(CommentsOf(exchanges, id).GetOr([]) + [comment])
  {
    if exchanges != [] && exchanges[0].id != id {
      AppendCommentTarget(exchanges[1..], id, comment);
      assert AppendComment(exchanges, id, comment)[1..] == AppendComment(exchanges[1..], id, comment);
    } else if exchanges != [] {
      var r := AppendComment(exchanges, id, comment);
      assert r[0] == exchanges[0].(comments := exchanges[0].comments + [comment]);
      assert CommentsOf(r, id) == Some(r[0].comments);
    } else {
      assert AppendComment(exchanges, id, comment) == [Exchange(id, [comment])];
      assert [] + [comment] == [comment];
    }
  }

  /** Every other exchange keeps its comments, and one without an entry still has none. */
  lemma {:induction false} AppendCommentOthers(exchanges: seq<Exchange>, id: int, comment: Comment, other: int)
    requires other != id
    ensures CommentsOf(AppendComment(exchanges, id, comment), other) == CommentsOf(exchanges, other)
  {
    if exchanges != [] && exchanges[0].id != id {
      AppendCommentOthers(exchanges[1..], id, comment, other);
    }
  }

  /** Appending never creates a second entry for an exchange. */
  lemma {:induction false} AppendCommentDistinct(exchanges: seq<Exchange>, id: int, comment: Comment)
    requires DistinctExchanges(exchanges)
    ensures DistinctExchanges(AppendComment(exchanges, id, comment))
  {
    var r := AppendComment(exchanges, id, comment);
    if exchanges != [] && exchanges[0].id != id {
      var rest := exchanges[1..];
      AppendCommentDistinct(rest, id, comment);
      forall i | 1 <= i < |r|
        ensures r[i].id != exchanges[0].id
      {
        assert r[i] == AppendComment(rest, id, comment)[i - 1];
        if i - 1 < |rest| {
          assert rest[i - 1] == exchanges[i];
        } else {
          assert CommentsOf(rest, id).None?;
        }
      }
    } else if exchanges == [] {
    } else {
      assert forall i :: 1 <= i < |r| ==> r[i] == exchanges[i];
    }
  }

  /** The condition the delete keeps a comment by. */
  function OtherThan(commentId: int): Comment -> bool
  {
    (c: Comment) => c.id != commentId
  }

  /** One exchange with the comments of the given id removed. */
  function Pruned(e: Exchange, commentId: int): (r: Exchange)
    ensures r.id == e.id
  {
    e.(comments := Filter(e.comments, OtherThan(commentId)))
  }

  /** Every exchange with the comments of the given id removed, in order. */
  function WithoutComment(exchanges: seq<Exchange>, commentId: int): (r: seq<Exchange>)
    ensures |r| == |exchanges|
  {
    if exchanges == [] then []
    else WithoutComment(exchanges[..|exchanges| - 1], commentId) + [Pruned(exchanges[|exchanges| - 1], commentId)]
  }

  /** Each exchange is pruned in place. */
  lemma {:induction false} WithoutCommentAt(exchanges: seq<Exchange>, commentId: int, k: nat)
    requires k < |exchanges|
    ensures WithoutComment(exchanges, commentId)[k] == Pruned(exchanges[k], commentId)
  {
    if k < |exchanges| - 1 {
      WithoutCommentAt(exchanges[..|exchanges| - 1], commentId, k);
    }
  }

  predicate IsNonEmpty(e: Exchange)
  {
    e.comments != []
  }

  /** `{k: v for k, v in comments.items() if v}`. */
  function DropEmpty(exchanges: seq<Exchange>): seq<Exchange>
  {
    Filter(exchanges, IsNonEmpty)
  }

  /** An exchange holds a comment with the given id. */
  predicate ExchangeHas(e: Exchange, commentId: int)
  {
    exists j :: 0 <= j < |e.comments| && e.comments[j].id == commentId
  }

  /** Some exchange holds a comment with the given id. */
  predicate HasComment(exchanges: seq<Exchange>, commentId: int)
  {
    exists k :: 0 <= k < |exchanges| && ExchangeHas(exchanges[k], commentId)
  }

  /** Pruning shortens an exchange's list exactly when it held the comment. */
  lemma PrunedShorterIff(e: Exchange, commentId: int)
    ensures |Pruned(e, commentId).comments| != |e.comments| <==> ExchangeHas(e, commentId)
  {
    FilterShorterIff(e.comments, OtherThan(commentId));
  }

  /** After a delete no comment with the id is left and no exchange is empty. */
  lemma DeleteRemovesAll(exchanges: seq<Exchange>, commentId: int)
    ensures forall e :: e in DropEmpty(WithoutComment(exchanges, commentId)) ==>
      e.comments != [] && !ExchangeHas(e, commentId)
  {
    var pruned := WithoutComment(exchanges, commentId);
    FilterMembers(pruned, IsNonEmpty);
    forall e | e in pruned
      ensures !ExchangeHas(e, commentId)
    {
      var k :| 0 <= k < |pruned| && pruned[k] == e;
      WithoutCommentAt(exchanges, commentId, k);
      FilterMembers(exchanges[k].comments, OtherThan(commentId));
      forall j | 0 <= j < |e.comments|
        ensures e.comments[j].id != commentId
      {
        assert e.comments[j] in e.comments;
      }
    }
  }

  /** Every other comment survives a delete, under the same exchange number. */
  lemma DeleteKeepsOthers(exchanges: seq<Exchange>, commentId: int, k: nat, j: nat)
    requires k < |exchanges| && j < |exchanges[k].comments|
    requires exchanges[k].comments[j].id != commentId
    ensures exists e :: (e in DropEmpty(WithoutComment(exchanges, commentId))
                         && e.id == exchanges[k].id && exchanges[k].comments[j] in e.comments)
  {
    var pruned := WithoutComment(exchanges, commentId);
    var c := exchanges[k].comments[j];
    WithoutCommentAt(exchanges, commentId, k);
    FilterMembers(exchanges[k].comments, OtherThan(commentId));
    assert c in pruned[k].comments;
    FilterMembers(pruned, IsNonEmpty);
    assert pruned[k] in DropEmpty(pruned);
  }

  // ---------------------------------------------------------------------------
  // Export
  // ---------------------------------------------------------------------------

  datatype Insight = Insight(exchangeId: int, text: string, author: string, timestamp: string, quotedText: string)

  datatype Quote = Quote(text: string, context: string, insight: string, author: string)

  datatype Synthesis = Synthesis(filename: string, totalComments: nat, insights: seq<Insight>, quotes: seq<Quote>)

  /** The comments of one exchange, each with its exchange number. */
  function Tagged(e: Exchange): (r: seq<(int, Comment)>)
    ensures |r| == |e.comments|
  {
    seq(|e.comments|, j requires 0 <= j < |e.comments| => (e.id, e.comments[j]))
  }

  /** Every comment with its exchange number, in iteration order. */
  function AllComments(exchanges: seq<Exchange>): seq<(int, Comment)>
  {
    Flatten(exchanges, Tagged)
  }

  function InsightOf(tagged: (int, Comment)): Insight
  {
    Insight(tagged.0, tagged.1.text, tagged.1.author, tagged.1.timestamp, tagged.1.selectedText)
  }

  function QuoteOf(tagged: (int, Comment)): Quote
  {
    Quote(tagged.1.selectedText, "Exchange " + IntStr(tagged.0), tagged.1.text, tagged.1.author)
  }

  /** `sum(len(comments) for comments in ...values())`. */
  function TotalComments(exchanges: seq<Exchange>): nat
  {
    if exchanges == [] then 0
    else TotalComments(exchanges[..|exchanges| - 1]) + |exchanges[|exchanges| - 1].comments|
  }

  /** The reported total is the number of comments exported. */
  lemma {:induction false} TotalCountsAll(exchanges: seq<Exchange>)
    ensures |AllComments(exchanges)| == TotalComments(exchanges)
  {
    if exchanges != [] {
      TotalCountsAll(exchanges[..|exchanges| - 1]);
    }
  }

  /** Every stored comment is exported, with its exchange number. */
  lemma ExportsEveryComment(exchanges: seq<Exchange>, k: nat, j: nat)
    requires k < |exchanges| && j < |exchanges[k].comments|
    ensures (exchanges[k].id, exchanges[k].comments[j]) in AllComments(exchanges)
  {
    assert Tagged(exchanges[k])[j] == (exchanges[k].id, exchanges[k].comments[j]);
    FlattenContains(exchanges, Tagged, k, (exchanges[k].id, exchanges[k].comments[j]));
  }

  /** The export: one insight and one quote per comment, in the same order, with the total. */
  function SynthesisOf(filename: string, exchanges: seq<Exchange>): Synthesis
  {
    var all := AllComments(exchanges);
    Synthesis(filename, TotalComments(exchanges), Map(all, InsightOf), Map(all, QuoteOf))
  }

  /**
   * The i-th insight and the i-th quote describe the same comment: the
   * quote's text is the insight's quoted text and its insight is the
   * insight's text; both counts equal the total.
   */
  lemma SynthesisPairs(filename: string, exchanges: seq<Exchange>, i: nat)
    requires i < TotalComments(exchanges)
    ensures var s := SynthesisOf(filename, exchanges);
      |s.insights| == |s.quotes| == s.totalComments
      && s.quotes[i].text == s.insights[i].quotedText
      && s.quotes[i].insight == s.insights[i].text
      && s.quotes[i].author == s.insights[i].author
      && s.quotes[i].context == "Exchange " + IntStr(s.insights[i].exchangeId)
  {
    var all := AllComments(exchanges);
    TotalCountsAll(exchanges);
    MapAt(all, InsightOf, i);
    MapAt(all, QuoteOf, i);
  }

  // ---------------------------------------------------------------------------
  // The endpoints
  // ---------------------------------------------------------------------------

  /** What an endpoint answers: a value, or an HTTP error status. */
  datatype Reply<T> = Ok(value: T) | HttpError(status: nat)

  /** The contents a request starts from: the stored file, or an empty one naming the transcript. */
  function Loaded(files: map<seq<string>, CommentsDoc>, projectSlug: string, filename: string, now: string): (d: CommentsDoc)
    ensures CommentsFile(projectSlug, filename) !in files ==> d.exchanges == [] && d.metadata.filename == filename
  {
    var path := CommentsFile(projectSlug, filename);
    if path in files then files[path] else CommentsDoc([], Metadata(filename, now, None))
  }

  /**
   * The comments files. A missing project slug (absent or empty) is refused
   * with 400 by every endpoint before any file is touched.
   */
  class CommentStore {
    var files: map<seq<string>, CommentsDoc>

    constructor(files: map<seq<string>, CommentsDoc>)
      ensures this.files == files
    {
      this.files := files;
    }

    /** `save_comments`: the contents, stamped with the update time, replace the file. */
    method Save(projectSlug: string, filename: string, doc: CommentsDoc, now: string)
      modifies this
      ensures files == old(files)[CommentsFile(projectSlug, filename) :=
                                  doc.(metadata := doc.metadata.(updated := Some(now)))]
    {
      files := files[CommentsFile(projectSlug, filename) := doc.(metadata := doc.metadata.(updated := Some(now)))];
    }

    /** `get_comments`: the stored contents, or an empty file that is not saved. */
    method GetComments(projectSlug: string, filename: string, now: string) returns (r: Reply<CommentsDoc>)
      ensures projectSlug == "" <==> r == HttpError(400)
      ensures r.Ok? ==> r.value == Loaded(files, projectSlug, filename, now)
      ensures projectSlug != "" ==> r == Ok(Loaded(files, projectSlug, filename, now))
      ensures r.Ok? && CommentsFile(projectSlug, filename) !in files ==> r.value.exchanges == []
    {
      if projectSlug == "" {
        return HttpError(400);
      }
      r := Ok(Loaded(files, projectSlug, filename, now));
    }

    /** `add_comment`: the comment, stamped with the time, goes at the end of its exchange's list. */
    method AddComment(projectSlug: string, filename: string, exchangeId: int, comment: Comment, now: string)
      returns (r: Reply<string>)
      modifies this
      ensures projectSlug == "" ==> r == HttpError(400) && files == old(files)
      ensures projectSlug != "" ==>
        var doc := Loaded(old(files), projectSlug, filename, now);
        r == Ok("Comment added successfully")
        && files == old(files)[CommentsFile(projectSlug, filename) :=
             CommentsDoc(AppendComment(doc.exchanges, exchangeId, comment.(created := now)),
                         doc.metadata.(updated := Some(now)))]
    {
      if projectSlug == "" {
        return HttpError(400);
      }
      var doc := Loaded(files, projectSlug, filename, now);
      doc := doc.(exchanges := AppendComment(doc.exchanges, exchangeId, comment.(created := now)));
      Save(projectSlug, filename, doc, now);
      r := Ok("Comment added successfully");
    }

    /**
     * `delete_comment`: every comment with the id goes, from every exchange,
     * and exchanges left empty are dropped; when no comment had the id the
     * answer is 404 and the file is not written.
     */
    method DeleteComment(projectSlug: string, filename: string, commentId: int, now: string)
      returns (r: Reply<string>)
      modifies this
      ensures projectSlug == "" ==> r == HttpError(400) && files == old(files)
      ensures projectSlug != "" ==>
        var doc := Loaded(old(files), projectSlug, filename, now);
        if HasComment(doc.exchanges, commentId) then
          r == Ok("Comment deleted successfully")
          && files == old(files)[CommentsFile(projectSlug, filename) :=
               CommentsDoc(DropEmpty(WithoutComment(doc.exchanges, commentId)), doc.metadata.(updated := Some(now)))]
        else
          r == HttpError(404) && files == old(files)
    {
      if projectSlug == "" {
        return HttpError(400);
      }
      var doc := Loaded(files, projectSlug, filename, now);
      var pruned, found := PruneAll(doc.exchanges, commentId);
      if !found {
        return HttpError(404);
      }
      Save(projectSlug, filename, doc.(exchanges := DropEmpty(pruned)), now);
      r := Ok("Comment deleted successfully");
    }

    /** `export_comments`: the synthesis of the stored comments, built by one pass over them. */
    method ExportComments(projectSlug: string, filename: string, now: string) returns (r: Reply<Synthesis>)
      ensures projectSlug == "" <==> r == HttpError(400)
      ensures r.Ok? ==> r.value == SynthesisOf(filename, Loaded(files, projectSlug, filename, now).exchanges)
      ensures projectSlug != "" ==> r == Ok(SynthesisOf(filename, Loaded(files, projectSlug, filename, now).exchanges))
    {
      if projectSlug == "" {
        return HttpError(400);
      }
      var exchanges := Loaded(files, projectSlug, filename, now).exchanges;
      var insights: seq<Insight> := [];
      var quotes: seq<Quote> := [];
      for i := 0 to |exchanges|
        invariant insights == Map(AllComments(exchanges[..i]), InsightOf)
        invariant quotes == Map(AllComments(exchanges[..i]), QuoteOf)
      {
        ExportExchange(exchanges, i);
        MapAppend(AllComments(exchanges[..i]), Tagged(exchanges[i]), InsightOf);
        MapAppend(AllComments(exchanges[..i]), Tagged(exchanges[i]), QuoteOf);
        insights, quotes := AppendExchange(exchanges[i], insights, quotes);
      }
      assert exchanges[..|exchanges|] == exchanges;
      r := Ok(Synthesis(filename, TotalComments(exchanges), insights, quotes));
    }
  }

  /**
   * The delete loop: each exchange's list is replaced by the comments
   * without the id, and `found` records whether some list got shorter.
   */
  method PruneAll(exchanges: seq<Exchange>, commentId: int) returns (pruned: seq<Exchange>, found: bool)
    ensures pruned == WithoutComment(exchanges, commentId)
    ensures found <==> HasComment(exchanges, commentId)
  {
    pruned, found := [], false;
    for i := 0 to |exchanges|
      invariant pruned == WithoutComment(exchanges[..i], commentId)
      invariant found <==> HasComment(exchanges[..i], commentId)
    {
      var kept := Pruned(exchanges[i], commentId);
      assert exchanges[..i + 1][..i] == exchanges[..i];
      pruned := pruned + [kept];
      PrunedShorterIff(exchanges[i], commentId);
      HasCommentSnoc(exchanges, commentId, i);
      if |kept.comments| != |exchanges[i].comments| {
        found := true;
      }
    }
    assert exchanges[..|exchanges|] == exchanges;
  }

  /** One more exchange holds the comment exactly when it or an earlier one does. */
  lemma HasCommentSnoc(exchanges: seq<Exchange>, commentId: int, i: nat)
    requires i < |exchanges|
    ensures HasComment(exchanges[..i + 1], commentId) <==>
      HasComment(exchanges[..i], commentId) || ExchangeHas(exchanges[i], commentId)
  {
    var longer := exchanges[..i + 1];
    assert longer[i] == exchanges[i];
    assert forall k :: 0 <= k < i ==> longer[k] == exchanges[..i][k];
  }

  /** The export loop's step: the next exchange's comments follow the ones already exported. */
  lemma ExportExchange(exchanges: seq<Exchange>, i: nat)
    requires i < |exchanges|
    ensures AllComments(exchanges[..i + 1]) == AllComments(exchanges[..i]) + Tagged(exchanges[i])
  {
    FlattenSnoc(exchanges, Tagged, i);
  }

  /** The inner export loop: one insight and one quote per comment of the exchange. */
  method AppendExchange(e: Exchange, insights: seq<Insight>, quotes: seq<Quote>)
    returns (insights': seq<Insight>, quotes': seq<Quote>)
    ensures insights' == insights + Map(Tagged(e), InsightOf)
    ensures quotes' == quotes + Map(Tagged(e), QuoteOf)
  {
    insights', quotes' := insights, quotes;
    var tagged := Tagged(e);
    for j := 0 to |tagged|
      invariant insights' == insights + Map(tagged[..j], InsightOf)
      invariant quotes' == quotes + Map(tagged[..j], QuoteOf)
    {
      MapPrefixSnoc(tagged, InsightOf, j);
      MapPrefixSnoc(tagged, QuoteOf, j);
      AppendAssoc(insights, Map(tagged[..j], InsightOf), [InsightOf(tagged[j])]);
      AppendAssoc(quotes, Map(tagged[..j], QuoteOf), [QuoteOf(tagged[j])]);
      insights' := insights' + [InsightOf(tagged[j])];
      quotes' := quotes' + [QuoteOf(tagged[j])];
    }
    assert tagged[..|tagged|] == tagged;
  }
}
