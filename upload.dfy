/**
 * The upload router: saving uploads, normalising one PDF into cleaned text,
 * listing projects with the stage artifacts each upload has, returning a
 * cached artifact, and deleting a project. The path helpers the router
 * imports name one file per (project, stage, upload name); they are modelled
 * as the key `Key(Project(slug), stage, filename)`, which is injective.
 */
module Upload {
  import opened Wrappers
  import opened Text
  import opened Json
  import opened Llm
  import opened Store
  import SharedUtils

  function ArtifactKey(slug: string, stage: Stage, filename: string): Key
  {
    Key(Project(slug), stage, filename)
  }

  /** The upload files of `upload_pdfs`, saved one after the other: a later name overwrites an earlier one. */
  function Saved(files: map<Key, string>, slug: string, uploads: seq<(string, string)>): map<Key, string>
    decreases |uploads|
  {
    if uploads == [] then files
    else Saved(files[ArtifactKey(slug, Uploads, uploads[0].0) := uploads[0].1], slug, uploads[1..])
  }

  /** Saving writes only upload keys, and the last upload of each name is the one kept. */
  lemma {:induction false} SavedShape(files: map<Key, string>, slug: string, uploads: seq<(string, string)>)
    ensures forall k :: k in Saved(files, slug, uploads) <==>
              k in files || exists i :: 0 <= i < |uploads| && k == ArtifactKey(slug, Uploads, uploads[i].0)
    ensures forall k :: k in files && (forall i :: 0 <= i < |uploads| ==> k != ArtifactKey(slug, Uploads, uploads[i].0)) ==>
              Saved(files, slug, uploads)[k] == files[k]
    ensures |uploads| > 0 ==>
              Saved(files, slug, uploads)[ArtifactKey(slug, Uploads, uploads[|uploads| - 1].0)] == uploads[|uploads| - 1].1
    decreases |uploads|
  {
    if uploads != [] {
      var next := files[ArtifactKey(slug, Uploads, uploads[0].0) := uploads[0].1];
      SavedShape(next, slug, uploads[1..]);
      forall k | k in Saved(files, slug, uploads)
        ensures k in files || exists i :: 0 <= i < |uploads| && k == ArtifactKey(slug, Uploads, uploads[i].0)
      {
        if k !in next {
          var i :| 0 <= i < |uploads[1..]| && k == ArtifactKey(slug, Uploads, uploads[1..][i].0);
          assert k == ArtifactKey(slug, Uploads, uploads[i + 1].0);
        }
      }
      forall k | k in files || exists i :: 0 <= i < |uploads| && k == ArtifactKey(slug, Uploads, uploads[i].0)
        ensures k in Saved(files, slug, uploads)
      {
        if k !in next {
          var i :| 0 <= i < |uploads| && k == ArtifactKey(slug, Uploads, uploads[i].0);
          assert i > 0;
          assert k == ArtifactKey(slug, Uploads, uploads[1..][i - 1].0);
        }
      }
      forall k | k in files && (forall i :: 0 <= i < |uploads| ==> k != ArtifactKey(slug, Uploads, uploads[i].0))
        ensures Saved(files, slug, uploads)[k] == files[k]
      {
        forall i | 0 <= i < |uploads[1..]|
          ensures k != ArtifactKey(slug, Uploads, uploads[1..][i].0)
        {
          assert uploads[1..][i] == uploads[i + 1];
        }
      }
      if |uploads| > 1 {
        assert uploads[1..][|uploads[1..]| - 1] == uploads[|uploads| - 1];
      }
    }
  }

  /** `f"Saved {len(saved_files)} file(s)"`. */
  function SavedMessage(n: nat): string
  {
    "Saved " + NatStr(n) + " file(s)"
  }

  /**
   * `upload_pdfs`: every (name, content) upload is written to the project's
   * upload folder in order, and the answer lists the saved names.
   */
  method UploadPdfs(disk: Disk, slug: string, uploads: seq<(string, string)>) returns (resp: Response)
    modifies disk
    ensures disk.files == Saved(old(disk.files), slug, uploads)
    ensures resp == Ok(JObj(map["message" := JStr(SavedMessage(|uploads|)),
                                "files" := JArr(seq(|uploads|, i requires 0 <= i < |uploads| => JStr(uploads[i].0)))]))
  {
    var saved: seq<Value> := [];
    ghost var rest := uploads;
    for i := 0 to |uploads|
      invariant rest == uploads[i..]
      invariant Saved(old(disk.files), slug, uploads) == Saved(disk.files, slug, rest)
      invariant saved == seq(i, k requires 0 <= k < i => JStr(uploads[k].0))
    {
      assert rest[0] == uploads[i] && rest[1..] == uploads[i + 1..];
      disk.files := disk.files[ArtifactKey(slug, Uploads, uploads[i].0) := uploads[i].1];
      saved := saved + [JStr(uploads[i].0)];
      rest := rest[1..];
    }
    resp := Ok(JObj(map["message" := JStr(SavedMessage(|uploads|)), "files" := JArr(saved)]));
  }

  /**
   * `normalize_file`: 400 for a name not ending in ".pdf" (in any case), the
   * cached cleaned text when there is one, 404 without the upload, 500 when
   * extraction raises, and otherwise the normalised text, which is written to
   * the cleaned artifact. `extract` is the PDF text extraction.
   */
  method NormalizeFile(disk: Disk, slug: string, filename: string, oracle: Oracle,
                       extract: string -> Option<string>, start: nat)
    returns (resp: Response, calls: nat)
    modifies disk
    ensures calls <= 2
    ensures !IsPdfName(filename) ==> resp == HttpError(400) && calls == 0 && disk.files == old(disk.files)
    ensures IsPdfName(filename) && ArtifactKey(slug, Cleaned, filename) in old(disk.files) ==>
              resp == Ok(JObj(map["content" := JStr(old(disk.files)[ArtifactKey(slug, Cleaned, filename)])]))
              && calls == 0 && disk.files == old(disk.files)
    ensures IsPdfName(filename) && ArtifactKey(slug, Cleaned, filename) !in old(disk.files)
            && ArtifactKey(slug, Uploads, filename) !in old(disk.files) ==>
              resp == HttpError(404) && calls == 0 && disk.files == old(disk.files)
    ensures IsPdfName(filename) && ArtifactKey(slug, Cleaned, filename) !in old(disk.files)
            && ArtifactKey(slug, Uploads, filename) in old(disk.files) ==>
              match extract(old(disk.files)[ArtifactKey(slug, Uploads, filename)])
              case None => resp == HttpError(500) && calls == 0 && disk.files == old(disk.files)
              case Some(raw) =>
                && ArtifactKey(slug, Cleaned, filename) in disk.files
                && disk.files == old(disk.files)[ArtifactKey(slug, Cleaned, filename) := disk.files[ArtifactKey(slug, Cleaned, filename)]]
                && resp == Ok(JObj(map["content" := JStr(disk.files[ArtifactKey(slug, Cleaned, filename)])]))
                && SharedUtils.IsNormalization(raw, oracle, start, disk.files[ArtifactKey(slug, Cleaned, filename)], calls)
  {
    if !IsPdfName(filename) {
      return HttpError(400), 0;
    }
    var cleanedKey := ArtifactKey(slug, Cleaned, filename);
    if cleanedKey in disk.files {
      return Ok(JObj(map["content" := JStr(disk.files[cleanedKey])])), 0;
    }
    var pdfKey := ArtifactKey(slug, Uploads, filename);
    if pdfKey !in disk.files {
      return HttpError(404), 0;
    }
    var raw := extract(disk.files[pdfKey]);
    if raw.None? {
      return HttpError(500), 0;
    }
    var text;
    text, calls := SharedUtils.RunNormalizer(raw.value, oracle, start);
    disk.files := disk.files[cleanedKey := text];
    resp := Ok(JObj(map["content" := JStr(text)]));
  }

  // ---------------------------------------------------------------------------
  // list_projects
  // ---------------------------------------------------------------------------

  /** The four stage flags `list_projects` reports for one upload. */
  datatype Flags = Flags(cleaned: bool, atoms: bool, annotated: bool, graph: bool)

  /** The project folders under the data directory. */
  function ProjectSlugs(files: map<Key, string>): set<string>
  {
    set k | k in files && k.scope.Project? :: k.scope.slug
  }

  /** The names in a project's upload folder. */
  function UploadNames(files: map<Key, string>, slug: string): set<string>
  {
    set k | k in files && k.scope == Project(slug) && k.stage == Uploads :: k.name
  }

  /** The names in a project's upload folder that end in ".pdf", in any case. */
  function PdfUploads(files: map<Key, string>, slug: string): set<string>
  {
    set f | f in UploadNames(files, slug) && IsPdfName(f)
  }

  /** Whether each of the four stage artifacts of an upload exists. */
  function FlagsOf(files: map<Key, string>, slug: string, filename: string): Flags
  {
    Flags(ArtifactKey(slug, Cleaned, filename) in files, ArtifactKey(slug, Atoms, filename) in files,
          ArtifactKey(slug, Annotated, filename) in files, ArtifactKey(slug, Graphs, filename) in files)
  }

  /** The `files_in_project` entry of one project: one flag record per PDF upload. */
  method FilesInProject(disk: Disk, slug: string) returns (found: map<string, Flags>)
    ensures found.Keys == PdfUploads(disk.files, slug)
    ensures forall f :: f in found ==> found[f] == FlagsOf(disk.files, slug, f)
  {
    found := map[];
    var names := UploadNames(disk.files, slug);
    var todo := names;
    while todo != {}
      invariant todo <= names
      invariant found.Keys == set f | f in names - todo && IsPdfName(f)
      invariant forall f :: f in found ==> found[f] == FlagsOf(disk.files, slug, f)
      decreases |todo|
    {
      var f :| f in todo;
      if IsPdfName(f) {
        found := found[f := FlagsOf(disk.files, slug, f)];
      }
      todo := todo - {f};
    }
  }

  /**
   * `list_projects`: a project is listed exactly when its upload folder holds
   * a PDF, and then with one entry per PDF upload giving which of its four
   * stage artifacts exist.
   */
  method ListProjects(disk: Disk) returns (projects: map<string, map<string, Flags>>)
    ensures forall slug :: slug in projects <==> PdfUploads(disk.files, slug) != {}
    ensures forall slug :: slug in projects ==>
              projects[slug].Keys == PdfUploads(disk.files, slug)
              && forall f :: f in projects[slug] ==> projects[slug][f] == FlagsOf(disk.files, slug, f)
  {
    projects := map[];
    var slugs := ProjectSlugs(disk.files);
    var todo := slugs;
    while todo != {}
      invariant todo <= slugs
      invariant forall slug :: slug in projects <==> slug in slugs - todo && PdfUploads(disk.files, slug) != {}
      invariant forall slug :: slug in projects ==>
                  projects[slug].Keys == PdfUploads(disk.files, slug)
                  && forall f :: f in projects[slug] ==> projects[slug][f] == FlagsOf(disk.files, slug, f)
      decreases |todo|
    {
      var slug :| slug in todo;
      var found := FilesInProject(disk, slug);
      if found != map[] {
        projects := projects[slug := found];
      }
      todo := todo - {slug};
    }
    forall slug | PdfUploads(disk.files, slug) != {}
      ensures slug in slugs
    {
      var f :| f in PdfUploads(disk.files, slug);
      var k :| k in disk.files && k.scope == Project(slug) && k.stage == Uploads && k.name == f;
    }
  }

  // ---------------------------------------------------------------------------
  // get_cached
  // ---------------------------------------------------------------------------

  /** The stage names `get_cached` accepts. */
  function StageNamed(stage: string): Option<Stage>
  {
    if stage == "cleaned" then Some(Cleaned)
    else if stage == "atoms" then Some(Atoms)
    else if stage == "annotated" then Some(Annotated)
    else if stage == "graph" then Some(Graphs)
    else None
  }

  /**
   * `get_cached`: 404 for an unknown stage or a missing artifact; the cleaned
   * text as plain text; any other artifact parsed as JSON (500 when it does not parse).
   */
  method GetCached(disk: Disk, stage: string, filename: string, slug: string, parse: Parser)
    returns (resp: Response)
    ensures resp == HttpError(404) <==>
              StageNamed(stage).None? || ArtifactKey(slug, StageNamed(stage).value, filename) !in disk.files
    ensures resp.PlainText? <==> stage == "cleaned" && ArtifactKey(slug, Cleaned, filename) in disk.files
    ensures resp.PlainText? ==> resp.content == disk.files[ArtifactKey(slug, Cleaned, filename)]
    ensures resp.Ok? ==>
              StageNamed(stage).Some? && stage != "cleaned"
              && ArtifactKey(slug, StageNamed(stage).value, filename) in disk.files
              && parse(disk.files[ArtifactKey(slug, StageNamed(stage).value, filename)]) == Some(resp.body)
    ensures resp == HttpError(500) ==>
              StageNamed(stage).Some? && stage != "cleaned"
              && ArtifactKey(slug, StageNamed(stage).value, filename) in disk.files
              && parse(disk.files[ArtifactKey(slug, StageNamed(stage).value, filename)]).None?
    ensures StageNamed(stage).Some? && stage != "cleaned"
            && ArtifactKey(slug, StageNamed(stage).value, filename) in disk.files ==>
              resp == match parse(disk.files[ArtifactKey(slug, StageNamed(stage).value, filename)])
                      case Some(v) => Ok(v)
                      case None => HttpError(500)
  {
    var named := StageNamed(stage);
    if named.None? {
      return HttpError(404);
    }
    var key := ArtifactKey(slug, named.value, filename);
    if key !in disk.files {
      return HttpError(404);
    }
    if stage == "cleaned" {
      return PlainText(disk.files[key]);
    }
    var parsed := parse(disk.files[key]);
    if parsed.None? {
      return HttpError(500);
    }
    resp := Ok(parsed.value);
  }

  // ---------------------------------------------------------------------------
  // delete_project
  // ---------------------------------------------------------------------------

  /** The disk without the project's folder. */
  function WithoutProject(files: map<Key, string>, slug: string): map<Key, string>
  {
    map k | k in files && k.scope != Project(slug) :: files[k]
  }

  /** Deleting keeps every file outside the project, unchanged, and no file inside it. */
  lemma WithoutProjectShape(files: map<Key, string>, slug: string)
    ensures forall k :: k in WithoutProject(files, slug) <==> k in files && k.scope != Project(slug)
    ensures forall k :: k in WithoutProject(files, slug) ==> WithoutProject(files, slug)[k] == files[k]
    ensures ProjectSlugs(WithoutProject(files, slug)) == ProjectSlugs(files) - {slug}
    ensures PdfUploads(WithoutProject(files, slug), slug) == {}
  {
    var w := WithoutProject(files, slug);
    forall s | s in ProjectSlugs(files) - {slug}
      ensures s in ProjectSlugs(w)
    {
      var k :| k in files && k.scope.Project? && k.scope.slug == s;
      assert k in w;
    }
  }

  /** Deleting a project that is already gone changes nothing, so a second delete succeeds the same way. */
  lemma WithoutProjectIdempotent(files: map<Key, string>, slug: string)
    ensures WithoutProject(WithoutProject(files, slug), slug) == WithoutProject(files, slug)
  {
  }

  function DeletedMessage(slug: string): string
  {
    "Project '" + slug + "' deleted."
  }

  /** `delete_project`: the project's folder is removed, if there is one, and the answer is always ok. */
  method DeleteProject(disk: Disk, slug: string) returns (resp: Response)
    modifies disk
    ensures disk.files == WithoutProject(old(disk.files), slug)
    ensures resp == Ok(JObj(map["ok" := JBool(true), "message" := JStr(DeletedMessage(slug))]))
  {
    disk.files := map k | k in disk.files && k.scope != Project(slug) :: disk.files[k];
    resp := Ok(JObj(map["ok" := JBool(true), "message" := JStr(DeletedMessage(slug))]));
  }
}
