/**
 * The DropZone: URL slugs for project names, the per-project stage folders,
 * and the project registry (`projects.json`), kept here as a map from slug to
 * metadata that the manager's methods update. Project ids and timestamps are
 * parameters; folders are paths given as lists of segments.
 */
module DropZone {
  import opened Wrappers
  import opened Text
  import opened Seqs

  // ---------------------------------------------------------------------------
  // Slugs
  // ---------------------------------------------------------------------------

  /** The characters `[\w\s-]`, the ones the first substitution keeps. */
  predicate IsSlugChar(c: char)
  {
    IsWordChar(c) || IsSpace(c) || c == '-'
  }

  /** The characters `[-\s]` whose runs the second substitution collapses. */
  predicate IsSeparator(c: char)
  {
    c == '-' || IsSpace(c)
  }

  /** `re.sub(r'[^\w\s-]', '', s)`. */
  function KeepSlugChars(s: string): string
  {
    Filter(s, IsSlugChar)
  }

  /** Drops the leading run of separators. */
  function DropSeparators(s: string): (r: string)
    ensures |r| <= |s| && r == s[|s| - |r|..]
    ensures r != [] ==> !IsSeparator(r[0])
    ensures forall k :: 0 <= k < |s| - |r| ==> IsSeparator(s[k])
  {
    if s != [] && IsSeparator(s[0]) then DropSeparators(s[1..]) else s
  }

  /** `re.sub(r'[-\s]+', '-', s)`: each maximal run of separators becomes one hyphen. */
  function Collapse(s: string): (r: string)
    ensures r != [] && r[0] == '-' <==> s != [] && IsSeparator(s[0])
    ensures forall x :: x in r ==> !IsSpace(x) && (x == '-' || x in s)
    ensures forall k :: 0 <= k < |r| - 1 ==> !(r[k] == '-' && r[k + 1] == '-')
    decreases |s|
  {
    if s == [] then []
    else if IsSeparator(s[0]) then
      var d := DropSeparators(s[1..]);
      SuffixWithin(s, d);
      var tail := Collapse(d);
      CollapseCons('-', tail, s);
      ['-'] + tail
    else
      SuffixWithin(s, s[1..]);
      var tail := Collapse(s[1..]);
      CollapseCons(s[0], tail, s);
      [s[0]] + tail
  }

  lemma SuffixWithin(s: string, t: string)
    requires |t| <= |s| && t == s[|s| - |t|..]
    ensures forall x :: x in t ==> x in s
  {
    forall x | x in t
      ensures x in s
    {
      var k :| 0 <= k < |t| && t[k] == x;
      assert s[|s| - |t| + k] == x;
    }
  }

  /** One step of the collapse: a character before a collapsed rest keeps it collapsed. */
  lemma CollapseCons(c: char, tail: string, s: string)
    requires !IsSpace(c) && (c == '-' || c in s)
    requires forall x :: x in tail ==> !IsSpace(x) && (x == '-' || x in s)
    requires forall k :: 0 <= k < |tail| - 1 ==> !(tail[k] == '-' && tail[k + 1] == '-')
    requires c == '-' && tail != [] ==> tail[0] != '-'
    ensures forall x :: x in [c] + tail ==> !IsSpace(x) && (x == '-' || x in s)
    ensures forall k :: 0 <= k < |[c] + tail| - 1 ==> !(([c] + tail)[k] == '-' && ([c] + tail)[k + 1] == '-')
  {
    var r := [c] + tail;
    forall k | 0 <= k < |r| - 1
      ensures !(r[k] == '-' && r[k + 1] == '-')
    {
      assert r[k + 1] == tail[k];
      if k > 0 {
        assert r[k] == tail[k - 1];
      }
    }
  }

  /** Drops the leading hyphens. */
  function LStripHyphens(s: string): (r: string)
    ensures |r| <= |s| && r == s[|s| - |r|..]
    ensures r != [] ==> r[0] != '-'
    ensures forall k :: 0 <= k < |s| - |r| ==> s[k] == '-'
  {
    if s != [] && s[0] == '-' then LStripHyphens(s[1..]) else s
  }

  /** Drops the trailing hyphens. */
  function RStripHyphens(s: string): (r: string)
    ensures |r| <= |s| && r == s[..|r|]
    ensures r != [] ==> r[|r| - 1] != '-'
    ensures forall k :: |r| <= k < |s| ==> s[k] == '-'
  {
    if s != [] && s[|s| - 1] == '-' then RStripHyphens(s[..|s| - 1]) else s
  }

  /** `s.strip('-')`. */
  function StripHyphens(s: string): string
  {
    RStripHyphens(LStripHyphens(s))
  }

  /** `_generate_slug`: lower-case, drop other characters, collapse separator runs, strip edge hyphens. */
  function Slug(name: string): string
  {
    StripHyphens(Collapse(KeepSlugChars(Lower(name))))
  }

  /**
   * A clean slug: lower-case word characters and hyphens, never two hyphens
   * in a row, and no hyphen at either end.
   */
  predicate Clean(s: string)
  {
    (forall k :: 0 <= k < |s| ==> (IsWordChar(s[k]) && !IsUpper(s[k])) || s[k] == '-')
    && (forall k :: 0 <= k < |s| - 1 ==> !(s[k] == '-' && s[k + 1] == '-'))
    && (s != [] ==> s[0] != '-' && s[|s| - 1] != '-')
  }

  /** Stripping keeps a contiguous middle part, so it keeps what holds for every character and every pair. */
  lemma StripHyphensSlice(s: string) returns (a: nat, b: nat)
    ensures a <= b <= |s| && StripHyphens(s) == s[a..b]
    ensures a < b ==> s[a] != '-' && s[b - 1] != '-'
  {
    var l := LStripHyphens(s);
    var r := RStripHyphens(l);
    a, b := |s| - |l|, |s| - |l| + |r|;
    assert r == s[|s| - |l|..][..|r|] == s[a..b];
    if a < b {
      assert r[0] == s[a] && r[|r| - 1] == s[b - 1];
    }
  }

  /** A character a clean slug may hold. */
  predicate InSlugAlphabet(c: char)
  {
    (IsWordChar(c) && !IsUpper(c)) || c == '-'
  }

  /** The lowered name, with the other characters dropped, holds only lower-case word characters and separators. */
  lemma KeptChars(name: string)
    ensures forall x :: x in KeepSlugChars(Lower(name)) ==> IsSlugChar(x) && !IsUpper(x)
  {
    var lowered := Lower(name);
    FilterMembers(lowered, IsSlugChar);
    forall x | x in lowered
      ensures !IsUpper(x)
    {
      var i :| 0 <= i < |lowered| && lowered[i] == x;
    }
  }

  /** Collapsing such a string leaves only slug characters. */
  lemma CollapseAlphabet(s: string)
    requires forall x :: x in s ==> IsSlugChar(x) && !IsUpper(x)
    ensures forall k :: 0 <= k < |Collapse(s)| ==> InSlugAlphabet(Collapse(s)[k])
  {
  }

  /** A slice without edge hyphens of a string of slug characters without doubled hyphens is clean. */
  lemma CleanSlice(s: string, a: nat, b: nat)
    requires a <= b <= |s|
    requires forall k :: 0 <= k < |s| ==> InSlugAlphabet(s[k])
    requires forall k :: 0 <= k < |s| - 1 ==> !(s[k] == '-' && s[k + 1] == '-')
    requires a < b ==> s[a] != '-' && s[b - 1] != '-'
    ensures Clean(s[a..b])
  {
    var r := s[a..b];
    assert forall k :: 0 <= k < |r| ==> r[k] == s[a + k];
  }

  /** Every slug is clean. */
  lemma SlugIsClean(name: string)
    ensures Clean(Slug(name))
  {
    KeptChars(name);
    CleanCollapsed(KeepSlugChars(Lower(name)));
  }

  /** Collapsing and stripping a string of lower-case slug characters gives a clean slug. */
  lemma CleanCollapsed(s: string)
    requires forall x :: x in s ==> IsSlugChar(x) && !IsUpper(x)
    ensures Clean(StripHyphens(Collapse(s)))
  {
    var collapsed := Collapse(s);
    CollapseAlphabet(s);
    var a, b := StripHyphensSlice(collapsed);
    CleanSlice(collapsed, a, b);
  }

  /** A string without separators at the front is left alone by dropping them. */
  lemma {:induction false} CollapseCleanIsIdentity(s: string)
    requires forall k :: 0 <= k < |s| ==> !IsSpace(s[k])
    requires forall k :: 0 <= k < |s| - 1 ==> !(s[k] == '-' && s[k + 1] == '-')
    ensures Collapse(s) == s
    decreases |s|
  {
    if s != [] {
      var t := s[1..];
      assert forall k :: 0 <= k < |t| ==> t[k] == s[k + 1];
      CollapseCleanIsIdentity(t);
      if |s| > 1 && s[0] == '-' {
        assert !IsSeparator(s[1]) by {
          assert !IsSpace(s[1]) && !(s[0] == '-' && s[1] == '-');
        }
      }
      CollapseFixedStep(s);
    }
  }

  /** One step of collapsing, for a string whose second character starts no separator run. */
  lemma CollapseStep(s: string)
    requires s != [] && (IsSeparator(s[0]) ==> |s| == 1 || !IsSeparator(s[1]))
    ensures Collapse(s) == [if IsSeparator(s[0]) then '-' else s[0]] + Collapse(s[1..])
  {
    if IsSeparator(s[0]) {
      assert DropSeparators(s[1..]) == s[1..];
    }
  }

  /** A collapsed tail stays collapsed behind a character that starts no new separator run. */
  lemma CollapseFixedStep(s: string)
    requires s != [] && !IsSpace(s[0]) && Collapse(s[1..]) == s[1..]
    requires s[0] == '-' && |s| > 1 ==> !IsSeparator(s[1])
    ensures Collapse(s) == s
  {
    CollapseStep(s);
    assert s == [s[0]] + s[1..];
  }

  /** A clean string is its own slug. */
  lemma CleanSlugIsFixed(s: string)
    requires Clean(s)
    ensures Slug(s) == s
  {
    assert Lower(s) == s;
    FilterKeepsAll(s, IsSlugChar);
    assert KeepSlugChars(Lower(s)) == s;
    CollapseCleanIsIdentity(s);
    StripWithoutEdgeHyphens(s);
  }

  /** A string without hyphens at its ends is left alone by stripping them. */
  lemma StripWithoutEdgeHyphens(s: string)
    requires s != [] ==> s[0] != '-' && s[|s| - 1] != '-'
    ensures StripHyphens(s) == s
  {
    assert LStripHyphens(s) == s;
    assert RStripHyphens(s) == s;
  }

  /** Slugging a slug changes nothing. */
  lemma SlugIdempotent(name: string)
    ensures Slug(Slug(name)) == Slug(name)
  {
    SlugIsClean(name);
    CleanSlugIsFixed(Slug(name));
  }

  /** Collapsing keeps every character that is not a separator. */
  lemma {:induction false} CollapseKeeps(s: string, c: char)
    requires c in s && !IsSeparator(c)
    ensures c in Collapse(s)
    decreases |s|
  {
    if s[0] != c {
      if IsSeparator(s[0]) {
        var d := DropSeparators(s[1..]);
        assert c in d by {
          var k :| 0 <= k < |s| && s[k] == c;
          assert k >= 1 && s[1..][k - 1] == c;
          assert k - 1 >= |s[1..]| - |d|;
          assert d[k - 1 - (|s[1..]| - |d|)] == c;
        }
        CollapseKeeps(d, c);
      } else {
        CollapseKeeps(s[1..], c);
      }
    }
  }

  /** Stripping hyphens keeps every other character. */
  lemma StripKeeps(s: string, c: char)
    requires c in s && c != '-'
    ensures c in StripHyphens(s)
  {
    var k :| 0 <= k < |s| && s[k] == c;
    var l := LStripHyphens(s);
    assert k >= |s| - |l| && l[k - (|s| - |l|)] == c;
    var r := RStripHyphens(l);
    assert k - (|s| - |l|) < |r| && r[k - (|s| - |l|)] == c;
  }

  /** A string of hyphens strips to nothing. */
  lemma HyphensStripToEmpty(s: string)
    requires forall x :: x in s ==> x == '-'
    ensures StripHyphens(s) == []
  {
    var a, b := StripHyphensSlice(s);
    forall k | 0 <= k < |s|
      ensures s[k] == '-'
    {
      assert s[k] in s;
    }
    if a < b {
      assert false;
    }
  }

  /** A word character of the name survives into the slug. */
  lemma SlugKeepsWordChar(name: string, k: nat)
    requires k < |name| && IsWordChar(name[k])
    ensures Slug(name) != []
  {
    var lowered := Lower(name);
    var c := lowered[k];
    var kept := KeepSlugChars(lowered);
    assert IsWordChar(c) && IsSlugChar(c) && !IsSeparator(c);
    FilterMembers(lowered, IsSlugChar);
    CollapseKeeps(kept, c);
    StripKeeps(Collapse(kept), c);
    assert c in Slug(name);
  }

  /** A name without word characters has the empty slug. */
  lemma SlugOfNoWordChars(name: string)
    requires forall k :: 0 <= k < |name| ==> !IsWordChar(name[k])
    ensures Slug(name) == []
  {
    var lowered := Lower(name);
    var kept := KeepSlugChars(lowered);
    FilterMembers(lowered, IsSlugChar);
    assert forall x :: x in lowered ==> !IsWordChar(x);
    assert forall x :: x in kept ==> IsSeparator(x);
    HyphensStripToEmpty(Collapse(kept));
  }

  /** The slug is empty exactly when the name has no word character; the source accepts an empty slug. */
  lemma SlugEmptyIff(name: string)
    ensures Slug(name) == [] <==> forall k :: 0 <= k < |name| ==> !IsWordChar(name[k])
  {
    if k :| 0 <= k < |name| && IsWordChar(name[k]) {
      SlugKeepsWordChar(name, k);
    } else {
      SlugOfNoWordChars(name);
    }
  }

  // ---------------------------------------------------------------------------
  // Folders and the registry
  // ---------------------------------------------------------------------------

  /** A path as its list of segments. */
  type Path = seq<string>

  /** The stage folders every project gets, in creation order. */
  const StageFolders: seq<string> := ["raw", "cleaned", "atoms", "annotated", "graphs", "boards", "qa"]

  /** `get_project_path`: base/slug/stage, stage "raw" unless given. */
  function ProjectPath(base: Path, slug: string, stage: string := "raw"): (p: Path)
    ensures |p| == |base| + 2 && p[..|base|] == base
  {
    base + [slug, stage]
  }

  /** Different projects or stages never share a folder. */
  lemma ProjectPathInjective(base: Path, slug: string, stage: string, slug': string, stage': string)
    requires ProjectPath(base, slug, stage) == ProjectPath(base, slug', stage')
    ensures slug == slug' && stage == stage'
  {
    assert ProjectPath(base, slug, stage)[|base|] == slug;
    assert ProjectPath(base, slug', stage')[|base|] == slug';
  }

  datatype ProjectMetadata = ProjectMetadata(
    projectId: string, projectSlug: string, name: string, description: string, researcher: string,
    createdAt: string, updatedAt: string, transcriptCount: int, status: string, tags: seq<string>)

  class DropZoneManager {
    const basePath: Path
    /** The registry, keyed by slug. */
    var projects: map<string, ProjectMetadata>
    /** The folders that exist. */
    var folders: set<Path>

    /** Every entry is registered under its own slug. */
    predicate Valid()
      reads this
    {
      forall slug :: slug in projects ==> projects[slug].projectSlug == slug
    }

    /** The manager over `basePath`, which it creates, with the stored registry (empty when there is none). */
    constructor(basePath: Path, stored: map<string, ProjectMetadata>, existing: set<Path>)
      ensures this.basePath == basePath && projects == stored && folders == existing + {basePath}
      ensures Valid() <==> forall slug :: slug in stored ==> stored[slug].projectSlug == slug
    {
      this.basePath := basePath;
      projects := stored;
      folders := existing + {basePath};
    }

    /** `_save_project_metadata`: the entry is stored under its slug, replacing any earlier one. */
    method SaveProjectMetadata(metadata: ProjectMetadata)
      modifies this
      ensures projects == old(projects)[metadata.projectSlug := metadata]
      ensures folders == old(folders)
      ensures old(Valid()) ==> Valid()
    {
      projects := projects[metadata.projectSlug := metadata];
    }

    /** `mkdir` of each stage folder of a project, in order. */
    method MakeStageFolders(slug: string)
      modifies this
      ensures folders == old(folders) + set stage | stage in StageFolders :: ProjectPath(basePath, slug, stage)
      ensures projects == old(projects)
    {
      ghost var before := folders;
      for i := 0 to |StageFolders|
        invariant folders == before + set stage | stage in StageFolders[..i] :: ProjectPath(basePath, slug, stage)
        invariant projects == old(projects)
      {
        assert StageFolders[..i + 1] == StageFolders[..i] + [StageFolders[i]];
        folders := folders + {ProjectPath(basePath, slug, StageFolders[i])};
      }
      assert StageFolders[..|StageFolders|] == StageFolders;
    }

    /**
     * `create_project`: the metadata is active with no transcripts, the
     * project folder and its seven stage folders exist, and the registry maps
     * the slug to it, overwriting an entry with the same slug and leaving every
     * other entry as it was.
     */
    method CreateProject(name: string, description: string, researcher: string, tags: Option<seq<string>>,
                         projectId: string, createdAt: string, updatedAt: string)
      returns (metadata: ProjectMetadata)
      modifies this
      ensures metadata == ProjectMetadata(projectId, Slug(name), name, description, researcher,
                                          createdAt, updatedAt, 0, "active", tags.GetOr([]))
      ensures projects == old(projects)[Slug(name) := metadata]
      ensures folders == old(folders) + {basePath + [Slug(name)]}
                         + set stage | stage in StageFolders :: ProjectPath(basePath, Slug(name), stage)
      ensures old(Valid()) ==> Valid()
    {
      var slug := Slug(name);
      metadata := ProjectMetadata(projectId, slug, name, description, researcher,
                                  createdAt, updatedAt, 0, "active", tags.GetOr([]));
      folders := folders + {basePath + [slug]};
      MakeStageFolders(slug);
      SaveProjectMetadata(metadata);
    }

    /** `get_project`. */
    function GetProject(slug: string): (r: Option<ProjectMetadata>)
      reads this
      ensures r.None? <==> slug !in projects
      ensures r.Some? ==> r.value == projects[slug]
      ensures Valid() && r.Some? ==> r.value.projectSlug == slug
    {
      if slug in projects then Some(projects[slug]) else None
    }

    /** `list_projects`: every registered entry (the registry's order is not modelled). */
    function ListProjects(): (r: set<ProjectMetadata>)
      reads this
      ensures forall m :: m in r <==> exists slug :: slug in projects && projects[slug] == m
    {
      projects.Values
    }

    /**
     * `update_project_status`: only the status and the update time of an
     * existing entry change; an unknown slug changes nothing.
     */
    method UpdateProjectStatus(slug: string, status: string, now: string)
      modifies this
      ensures slug in old(projects) ==>
        projects == old(projects)[slug := old(projects)[slug].(status := status, updatedAt := now)]
      ensures slug !in old(projects) ==> projects == old(projects)
      ensures folders == old(folders)
      ensures old(Valid()) ==> Valid()
    {
      if slug in projects {
        projects := projects[slug := projects[slug].(status := status, updatedAt := now)];
      }
    }
  }
}
