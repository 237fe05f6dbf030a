/**
 * Compose-file discovery: the glob matches for a fixed list of patterns under
 * the working directory are filtered by file name and collected into an ordered
 * set of paths. Globbing, `is_file` and `canonicalize` are outcomes given as
 * input: `glob(p)` is what the glob for pattern `p` (joined to the directory)
 * yields, each match carrying whether it is a regular file and its canonical
 * path when canonicalisation succeeds.
 */
module Discovery {
  import opened Wrappers
  import opened Ordering
  import opened Text
  import opened Model

  /** The eight patterns, tried in this order. */
  const ComposePatterns: seq<string> := [
    "compose*.yml",
    "compose*.yaml",
    "docker-compose*.yml",
    "docker-compose*.yaml",
    "**/compose*.yml",
    "**/compose*.yaml",
    "**/docker-compose*.yml",
    "**/docker-compose*.yaml"
  ]

  /** One item of a glob iterator: an unreadable entry, or a matched path. */
  datatype GlobEntry =
    | EntryError(reason: string)
    | Match(path: Path, isFile: bool, canonical: Option<Path>)

  /** A glob call: an invalid pattern, or its entries in iteration order. */
  datatype GlobOutcome =
    | PatternError(message: string)
    | Matches(entries: seq<GlobEntry>)

  /**
   * The exclusion test on a file name: its lowercase form contains `prod`,
   * `staging` or `production`.
   */
  predicate Dominated(fileName: string) {
    var lower := AsciiLower(fileName);
    Contains(lower, "prod") || Contains(lower, "staging") || Contains(lower, "production")
  }

  /**
   * A glob entry that is kept: a match that is a regular file whose last
   * component (or the empty name when there is none) is not dominated.
   * Directory names play no part.
   */
  predicate Kept(e: GlobEntry) {
    e.Match? && e.isFile && !Dominated(FileName(e.path).GetOr(""))
  }

  /** The path a kept entry contributes: canonical when that succeeded, else as matched. */
  function Stored(e: GlobEntry): (q: Path)
    requires e.Match?
    ensures e.canonical.None? ==> q == e.path
  {
    e.canonical.GetOr(e.path)
  }

  /** `q` is stored by one of the first `j` entries. */
  ghost predicate StoredAmong(entries: seq<GlobEntry>, j: int, q: Path) {
    exists i :: 0 <= i < j && i < |entries| && Kept(entries[i]) && Stored(entries[i]) == q
  }

  /** `q` is stored by some entry of a glob outcome. */
  ghost predicate StoredBy(o: GlobOutcome, q: Path) {
    o.Matches? && StoredAmong(o.entries, |o.entries|, q)
  }

  /** The outcome holds an error: a bad pattern or an unreadable entry. */
  predicate Failed(o: GlobOutcome) {
    o.PatternError? || exists i :: 0 <= i < |o.entries| && o.entries[i].EntryError?
  }

  /**
   * `find_compose_files`: an error from any pattern or entry is the result;
   * otherwise the result is ascending without repeats and holds exactly the
   * stored paths of the kept entries of all patterns.
   */
  method FindComposeFiles(glob: string -> GlobOutcome) returns (r: Result<seq<Path>>)
    ensures r.Err? <==> exists p :: p in ComposePatterns && Failed(glob(p))
    ensures r.Ok? ==> StrictlySorted(r.value, PathLess)
    ensures r.Ok? ==> forall q :: q in r.value <==> exists p :: p in ComposePatterns && StoredBy(glob(p), q)
  {
    PathLessIsOrder();
    var found: seq<Path> := [];
    for k := 0 to |ComposePatterns|
      invariant StrictlySorted(found, PathLess)
      invariant forall p :: p in ComposePatterns[..k] ==> !Failed(glob(p))
      invariant forall q :: q in found <==> exists p :: p in ComposePatterns[..k] && StoredBy(glob(p), q)
    {
      var pattern := ComposePatterns[k];
      var outcome := glob(pattern);
      if outcome.PatternError? {
        return Err(outcome.message);
      }
      var entries := outcome.entries;
      ghost var earlier := found;
      for j := 0 to |entries|
        invariant StrictlySorted(found, PathLess)
        invariant forall i :: 0 <= i < j ==> !entries[i].EntryError?
        invariant forall q :: q in found <==> q in earlier || StoredAmong(entries, j, q)
      {
        var entry := entries[j];
        if entry.EntryError? {
          assert Failed(glob(pattern));
          return Err(entry.reason);
        }
        if entry.isFile {
          var lower := AsciiLower(FileName(entry.path).GetOr(""));
          var dominated := Contains(lower, "prod") || Contains(lower, "staging") || Contains(lower, "production");
          if !dominated {
            found := InsertSorted(found, entry.canonical.GetOr(entry.path), PathLess);
          }
        }
        forall q ensures StoredAmong(entries, j + 1, q) <==> StoredAmong(entries, j, q) || (Kept(entry) && Stored(entry) == q) {
          StoredAmongStep(entries, j, q);
        }
      }
      assert !Failed(outcome);
      assert ComposePatterns[..k + 1] == ComposePatterns[..k] + [pattern];
      forall q ensures q in found <==> exists p :: p in ComposePatterns[..k + 1] && StoredBy(glob(p), q) {
        if q in found && q !in earlier {
          assert StoredBy(glob(pattern), q);
        }
        if exists p :: p in ComposePatterns[..k + 1] && StoredBy(glob(p), q) {
          var p :| p in ComposePatterns[..k + 1] && StoredBy(glob(p), q);
          if p != pattern {
            assert p in ComposePatterns[..k];
          }
        }
      }
    }
    assert ComposePatterns[..|ComposePatterns|] == ComposePatterns;
    return Ok(found);
  }

  /** One more entry adds its stored path, if it is kept. */
  lemma StoredAmongStep(entries: seq<GlobEntry>, j: nat, q: Path)
    requires j < |entries|
    ensures StoredAmong(entries, j + 1, q) <==> StoredAmong(entries, j, q) || (Kept(entries[j]) && Stored(entries[j]) == q)
  {
    if StoredAmong(entries, j + 1, q) {
      var i :| 0 <= i < j + 1 && i < |entries| && Kept(entries[i]) && Stored(entries[i]) == q;
      if i < j {
        assert StoredAmong(entries, j, q);
      }
    }
  }

  /** `production` is redundant in the list: a name containing it contains `prod`. */
  lemma {:induction false} ProductionContainsProd(s: string)
    requires Contains(s, "production")
    ensures Contains(s, "prod")
    decreases |s|
  {
    if StartsWith(s, "production") {
      assert s[..4] == "production"[..4];
    } else {
      ProductionContainsProd(s[1..]);
    }
  }

  /** So a file name is dominated exactly when its lowercase form contains `prod` or `staging`. */
  lemma DominatedByTwo(fileName: string)
    ensures Dominated(fileName) <==> Contains(AsciiLower(fileName), "prod") || Contains(AsciiLower(fileName), "staging")
  {
    if Contains(AsciiLower(fileName), "production") {
      ProductionContainsProd(AsciiLower(fileName));
    }
  }
}
