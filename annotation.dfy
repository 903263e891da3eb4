/**
 * The Illumina 450k annotation extractor (`AnnotationInspector`): its derived
 * paths, the download cache rule, the path-traversal guard over the archive's
 * member names, the search for the two RDA files, and the gating of its five
 * timed steps.
 */
module Annotation {
  import opened Wrappers
  import opened Text
  import opened PosixPath
  import opened Telemetry
  import opened FileStore

  /** What the inspector's steps can raise. */
  datatype AnnotationError =
    | ConnectionFailed            // `requests.get` raised
    | HttpStatus(code: nat)       // `raise_for_status` rejected the reply
    | ArchiveUnreadable           // `tarfile.open` could not read the archive
    | PathTraversal(index: nat)   // the guard rejected the member at this index
    | ExtractFailed               // `extractall` raised while writing the members
    | RdaNotFound                 // `_discover_rda` found only one of the files, or none
    | RdaLoadFailed               // the R bridge could not load the files
    | MergeFailed                 // the pandas join raised
    | ExportFailed                // writing the CSV raised

  // ---- Derived paths (`__init__`) ----

  function TarPath(dataDir: string): string {
    Join(dataDir, "Illumina450k_annotation.tar.gz")
  }

  function ExtractDir(dataDir: string, tag: string): string {
    Join(dataDir, "s00007_" + Lower(tag) + "_annotation")
  }

  function OutputCsv(dataDir: string, tag: string): string {
    Join(dataDir, "s00007_" + Lower(tag) + "_annotation_merged.csv")
  }

  /** All three paths sit directly under the data directory, and the merged CSV is
      named after the extraction directory. */
  lemma DerivedPaths(dataDir: string, tag: string)
    ensures var base := dataDir + Sep(dataDir);
      TarPath(dataDir) == base + "Illumina450k_annotation.tar.gz"
      && ExtractDir(dataDir, tag) == base + "s00007_" + Lower(tag) + "_annotation"
      && OutputCsv(dataDir, tag) == ExtractDir(dataDir, tag) + "_merged.csv"
  {
    var name := "s00007_" + Lower(tag) + "_annotation";
    assert name[0] == 's';
    assert "s00007_" + Lower(tag) + "_annotation_merged.csv" == name + "_merged.csv";
    assert (name + "_merged.csv")[0] == 's';
  }

  /** The tag is lower-cased first, so its case does not change the paths. */
  lemma TagCaseIrrelevant(dataDir: string, tag: string)
    ensures ExtractDir(dataDir, Lower(tag)) == ExtractDir(dataDir, tag)
    ensures OutputCsv(dataDir, Lower(tag)) == OutputCsv(dataDir, tag)
  {
    LowerIdempotent(tag);
  }

  // ---- `_download_if_needed` ----

  /** What `requests.get(url, timeout=...)` returned: a reply, or it raised. */
  datatype HttpReply = Reply(status: nat, bodySize: nat) | NoConnection

  /** `raise_for_status` raises for the 4xx and 5xx status codes. */
  predicate StatusOk(status: nat) {
    !(400 <= status < 600)
  }

  function DownloadIfNeeded(files: map<string, nat>, outPath: string, reply: HttpReply): (r: Result<map<string, nat>, AnnotationError>)
    ensures CacheHit(files, outPath) ==> r == Ok(files)
    ensures !CacheHit(files, outPath) && reply.Reply? && StatusOk(reply.status) ==>
      r == Ok(files[outPath := reply.bodySize])
    ensures r.Err? <==> !CacheHit(files, outPath) && (reply.NoConnection? || !StatusOk(reply.status))
  {
    if CacheHit(files, outPath) then Ok(files)
    else if reply.NoConnection? then Err(ConnectionFailed)
    else if !StatusOk(reply.status) then Err(HttpStatus(reply.status))
    else Ok(files[outPath := reply.bodySize])
  }

  /** A second run after a download that wrote a non-empty file neither fetches nor
      fails, whatever the network would answer. */
  lemma DownloadIdempotent(files: map<string, nat>, outPath: string, reply: HttpReply, again: HttpReply)
    requires DownloadIfNeeded(files, outPath, reply).Ok?
    requires CacheHit(DownloadIfNeeded(files, outPath, reply).value, outPath)
    ensures DownloadIfNeeded(DownloadIfNeeded(files, outPath, reply).value, outPath, again)
         == DownloadIfNeeded(files, outPath, reply)
  {
  }

  // ---- `_safe_extract` / `is_within_directory` ----

  /** `is_within_directory(directory, target)`: a CHARACTER prefix test on the two
      absolute forms, not a test on path components. */
  predicate IsWithinDirectory(cwd: string, directory: string, target: string) {
    CommonPrefix(AbsPath(cwd, directory), AbsPath(cwd, target)) == AbsPath(cwd, directory)
  }

  /** The guard applied to one member: `join(extract_dir, member.name)` must pass. */
  predicate MemberAllowed(cwd: string, extractDir: string, name: string) {
    IsWithinDirectory(cwd, extractDir, Join(extractDir, name))
  }

  /** The guard accepts a member exactly when the absolute extraction directory is a
      character prefix of the absolute member path; an absolute member name is
      checked as itself, because `join` discards the base. */
  lemma GuardIsCharacterPrefix(cwd: string, extractDir: string, name: string)
    ensures MemberAllowed(cwd, extractDir, name)
      <==> AbsPath(cwd, extractDir) <= AbsPath(cwd, Join(extractDir, name))
    ensures IsAbs(name) ==>
      (MemberAllowed(cwd, extractDir, name) <==> AbsPath(cwd, extractDir) <= NormPath(name))
  {
    CommonPrefixIsPrefix(AbsPath(cwd, extractDir), AbsPath(cwd, Join(extractDir, name)));
  }

  /** A relative member name without any `..` piece always passes the guard. */
  lemma RelativeMemberAllowed(cwd: string, extractDir: string, name: string)
    requires IsAbs(cwd) && !IsAbs(name) && ".." !in Split(name)
    ensures MemberAllowed(cwd, extractDir, name)
  {
    var m := Join(extractDir, name);
    if IsAbs(extractDir) {
      assert m == extractDir + Sep(extractDir) + name;
      assert m[0] == extractDir[0];
      NormPathExtends(extractDir, name);
    } else {
      var p := Join(cwd, extractDir);
      assert p == cwd + Sep(cwd) + extractDir && p[0] == cwd[0];
      if extractDir != [] {
        assert m == extractDir + Sep(extractDir) + name;
        assert m[0] == extractDir[0];
      }
      JoinAssociative(cwd, extractDir, name);
      NormPathExtends(p, name);
    }
    GuardIsCharacterPrefix(cwd, extractDir, name);
  }

  /** With extraction directory `/data/x`, `../evil` lands on `/data/evil` and is
      rejected. */
  lemma ParentEscapeRejected(cwd: string)
    ensures !MemberAllowed(cwd, "/data/x", "../evil")
  {
    assert "/data/x" == "/" + "data" + "/" + "x";
    assert "../evil" == "../" + "evil";
    assert IsName("data") && IsName("x") && IsName("evil");
    NormPathOfTwoNames("data", "x");
    NormPathParentStep("data", "x", "evil");
    GuardIsCharacterPrefix(cwd, "/data/x", "../evil");
    assert ("/" + "data" + "/" + "evil")[6] != ("/" + "data" + "/" + "x")[6];
  }

  /** A single parent step from `/a/b` to `/a/c` passes the guard exactly when the
      directory's last name `b` is a character prefix of the sibling's name `c`. */
  lemma ParentStepAllowedIff(cwd: string, a: string, b: string, c: string)
    requires IsName(a) && IsName(b) && IsName(c)
    ensures MemberAllowed(cwd, "/" + a + "/" + b, "../" + c) <==> b <= c
  {
    NormPathOfTwoNames(a, b);
    NormPathParentStep(a, b, c);
    GuardIsCharacterPrefix(cwd, "/" + a + "/" + b, "../" + c);
    var p := "/" + a + "/";
    assert "/" + a + "/" + b == p + b && "/" + a + "/" + c == p + c;
    if p + b <= p + c {
      forall i | 0 <= i < |b|
        ensures b[i] == c[i]
      {
        assert (p + b)[|p| + i] == b[i] && (p + c)[|p| + i] == c[i];
      }
    }
  }

  /** Two parent steps always escape: `../../c` from `/a/b` lands on `/c`, which does
      not start with `/a/b`. */
  lemma DoubleParentEscapeRejected(cwd: string, a: string, b: string, c: string)
    requires IsName(a) && IsName(b) && IsName(c)
    ensures !MemberAllowed(cwd, "/" + a + "/" + b, "../../" + c)
  {
    NormPathOfTwoNames(a, b);
    NormPathDoubleParentStep(a, b, c);
    GuardIsCharacterPrefix(cwd, "/" + a + "/" + b, "../../" + c);
    var d := "/" + a + "/" + b;
    assert d[|a| + 1] == '/';
    assert |a| + 1 >= |"/" + c| || ("/" + c)[|a| + 1] == c[|a|];
  }

  /** With extraction directory `/data/x`, `../../evil` lands on `/evil` and is rejected. */
  lemma DoubleParentExampleRejected(cwd: string)
    ensures !MemberAllowed(cwd, "/data/x", "../../evil")
  {
    assert "/data/x" == "/" + "data" + "/" + "x";
    assert "../../evil" == "../../" + "evil";
    assert IsName("data") && IsName("x") && IsName("evil");
    DoubleParentEscapeRejected(cwd, "data", "x", "evil");
  }

  /** A sibling whose name extends the directory's last name passes the guard:
      `../bs` from `/a/b` lands on `/a/bs`, of which `/a/b` is a character prefix. */
  lemma SiblingWithSharedPrefix(cwd: string, a: string, b: string, s: string)
    requires IsName(a) && IsName(b) && IsName(b + s)
    ensures MemberAllowed(cwd, "/" + a + "/" + b, "../" + (b + s))
  {
    NormPathOfTwoNames(a, b);
    NormPathParentStep(a, b, b + s);
    GuardIsCharacterPrefix(cwd, "/" + a + "/" + b, "../" + (b + s));
    assert "/" + a + "/" + b <= "/" + a + "/" + (b + s);
  }

  /** Because the guard compares characters, the sibling `../x_evil`, which lands on
      `/data/x_evil` outside `/data/x`, is accepted. */
  lemma SiblingPrefixAccepted(cwd: string)
    ensures MemberAllowed(cwd, "/data/x", "../x_evil")
  {
    assert IsName("data") && IsName("x") && IsName("x" + "_evil");
    SiblingWithSharedPrefix(cwd, "data", "x", "_evil");
    assert "/" + "data" + "/" + "x" == "/data/x";
    assert "../" + ("x" + "_evil") == "../x_evil";
  }

  /** A member nested two directories deep under plain names passes the guard. */
  lemma NestedNamesAllowed(cwd: string, extractDir: string, a: string, b: string, c: string)
    requires IsAbs(cwd) && IsName(a) && IsName(b) && IsName(c)
    ensures MemberAllowed(cwd, extractDir, a + "/" + b + "/" + c)
  {
    var n := a + "/" + b + "/" + c;
    assert n == a + "/" + (b + "/" + c);
    SplitAroundSlash(a, b + "/" + c);
    SplitAroundSlash(b, c);
    SplitWithoutSlash(a);
    SplitWithoutSlash(b);
    SplitWithoutSlash(c);
    assert Split(n) == [a, b, c];
    assert n[0] == a[0];
    RelativeMemberAllowed(cwd, extractDir, n);
  }

  /** A nested member such as `pkg/data/Locations.rda` is accepted. */
  lemma NestedMemberAccepted(cwd: string)
    requires IsAbs(cwd)
    ensures MemberAllowed(cwd, "/data/x", "pkg/data/Locations.rda")
  {
    assert "pkg/data/Locations.rda" == "pkg" + "/" + "data" + "/" + "Locations.rda";
    assert IsName("pkg") && IsName("data") && IsName("Locations.rda");
    NestedNamesAllowed(cwd, "/data/x", "pkg", "data", "Locations.rda");
  }

  /** An absolute member name outside the directory, `/etc/passwd`, is rejected. */
  lemma AbsoluteMemberRejected(cwd: string)
    ensures !MemberAllowed(cwd, "/data/x", "/etc/passwd")
  {
    assert "/data/x" == "/" + "data" + "/" + "x";
    assert "/etc/passwd" == "/" + "etc" + "/" + "passwd";
    assert IsName("data") && IsName("x") && IsName("etc") && IsName("passwd");
    NormPathOfTwoNames("data", "x");
    NormPathOfTwoNames("etc", "passwd");
    GuardIsCharacterPrefix(cwd, "/data/x", "/etc/passwd");
  }

  // ---- The extraction loop ----

  /** The guard's verdict on each member, in archive order. */
  function Verdicts(cwd: string, extractDir: string, members: seq<string>): seq<bool> {
    seq(|members|, j requires 0 <= j < |members| => MemberAllowed(cwd, extractDir, members[j]))
  }

  /** Where `extractall` writes each member: its name joined to the extraction directory. */
  function MemberPaths(extractDir: string, members: seq<string>): seq<string> {
    seq(|members|, j requires 0 <= j < |members| => Join(extractDir, members[j]))
  }

  /** The first index, from `from` on, whose verdict is a rejection. */
  function FirstRejected(ok: seq<bool>, from: nat): (r: Option<nat>)
    requires from <= |ok|
    ensures r.Some? ==> from <= r.value < |ok| && !ok[r.value]
    ensures r.Some? ==> forall j :: from <= j < r.value ==> ok[j]
    ensures r.None? <==> forall j :: from <= j < |ok| ==> ok[j]
    decreases |ok| - from
  {
    if from == |ok| then None
    else if !ok[from] then Some(from)
    else FirstRejected(ok, from + 1)
  }

  /** The guard loop of `_safe_extract` over a readable archive: the first rejected member raises before
      anything is written; otherwise each member is written to its joined path. */
  function ExtractResult(cwd: string, extractDir: string, members: seq<string>): Result<seq<string>, AnnotationError> {
    match FirstRejected(Verdicts(cwd, extractDir, members), 0)
    case Some(k) => Err(PathTraversal(k))
    case None => Ok(MemberPaths(extractDir, members))
  }

  /** Every member is checked before anything is written: the archive is extracted
      exactly when the guard accepts every member, each to its joined path; otherwise
      the error names the first rejected member. */
  lemma ExtractAllOrNothing(cwd: string, extractDir: string, members: seq<string>)
    ensures var r := ExtractResult(cwd, extractDir, members);
      (r.Ok? <==> forall j :: 0 <= j < |members| ==> MemberAllowed(cwd, extractDir, members[j]))
      && (r.Ok? ==> |r.value| == |members| && forall j :: 0 <= j < |members| ==> r.value[j] == Join(extractDir, members[j]))
    ensures var r := ExtractResult(cwd, extractDir, members);
      r.Err? ==> (r.error.PathTraversal? && r.error.index < |members|
        && !MemberAllowed(cwd, extractDir, members[r.error.index])
        && forall j :: 0 <= j < r.error.index ==> MemberAllowed(cwd, extractDir, members[j]))
  {
    var ok := Verdicts(cwd, extractDir, members);
    assert forall j :: 0 <= j < |members| ==> (ok[j] <==> MemberAllowed(cwd, extractDir, members[j]));
    match FirstRejected(ok, 0)
    case Some(k) =>
      assert ExtractResult(cwd, extractDir, members) == Err(PathTraversal(k));
    case None =>
      assert ExtractResult(cwd, extractDir, members) == Ok(MemberPaths(extractDir, members));
  }

  /** The guard accepts every member. */
  predicate AllAllowed(cwd: string, extractDir: string, members: seq<string>) {
    forall j :: 0 <= j < |members| ==> MemberAllowed(cwd, extractDir, members[j])
  }

  /** The outcome of `_safe_extract` as a whole: opening the archive can fail before
      any member is seen, the guard runs over every member next, and only then does
      `extractall` write, which can fail in its turn. `archive` is `None` when
      `tarfile.open` raises; `unpacked` says whether `extractall` succeeds. */
  function Extraction(cwd: string, extractDir: string, archive: Option<seq<string>>, unpacked: bool)
    : Result<seq<string>, AnnotationError>
  {
    match archive
    case None => Err(ArchiveUnreadable)
    case Some(members) =>
      var x := ExtractResult(cwd, extractDir, members);
      if x.Ok? && !unpacked then Err(ExtractFailed) else x
  }

  /** The three ways `_safe_extract` ends: an unreadable archive raises before any
      check; a rejected member raises before anything is written; `extractall` runs
      only once every member passed, and the archive is extracted exactly when it is
      readable, every member passes and `extractall` succeeds. */
  lemma ExtractionOutcome(cwd: string, extractDir: string, archive: Option<seq<string>>, unpacked: bool)
    ensures var r := Extraction(cwd, extractDir, archive, unpacked);
      (archive.None? <==> r == Err(ArchiveUnreadable))
      && (r.Ok? <==> (archive.Some? && unpacked && AllAllowed(cwd, extractDir, archive.value)))
      && (r.Ok? ==> (|r.value| == |archive.value|
                     && forall j :: 0 <= j < |archive.value| ==> r.value[j] == Join(extractDir, archive.value[j])))
      && (r == Err(ExtractFailed) ==> (archive.Some? && !unpacked && AllAllowed(cwd, extractDir, archive.value)))
      && (r.Err? && r.error.PathTraversal? ==>
            (archive.Some? && r.error.index < |archive.value|
             && !MemberAllowed(cwd, extractDir, archive.value[r.error.index])))
  {
    if archive.Some? {
      ExtractAllOrNothing(cwd, extractDir, archive.value);
    }
  }

  /** `_safe_extract(tar_path, extract_dir)`: `archive` holds the member names
      `tarfile.open` reads, `unpacked` whether `extractall` succeeds. */
  method SafeExtract(cwd: string, extractDir: string, archive: Option<seq<string>>, unpacked: bool)
    returns (r: Result<seq<string>, AnnotationError>)
    ensures r == Extraction(cwd, extractDir, archive, unpacked)
  {
    if archive.None? {
      return Err(ArchiveUnreadable);
    }
    var members := archive.value;
    ghost var ok := Verdicts(cwd, extractDir, members);
    var i := 0;
    while i < |members|
      invariant 0 <= i <= |members|
      invariant FirstRejected(ok, 0) == FirstRejected(ok, i)
    {
      var memberPath := Join(extractDir, members[i]);
      var allowed := IsWithinDirectory(cwd, extractDir, memberPath);
      assert ok[i] == allowed;
      if !allowed {
        return Err(PathTraversal(i));
      }
      i := i + 1;
    }
    if !unpacked {
      return Err(ExtractFailed);
    }
    r := Ok(MemberPaths(extractDir, members));
  }

  /** An archive whose members are all relative and free of `..` is extracted. */
  lemma RelativeArchiveExtracted(cwd: string, extractDir: string, members: seq<string>)
    requires IsAbs(cwd)
    requires forall j :: 0 <= j < |members| ==> !IsAbs(members[j]) && ".." !in Split(members[j])
    ensures ExtractResult(cwd, extractDir, members).Ok?
  {
    ExtractAllOrNothing(cwd, extractDir, members);
    forall j | 0 <= j < |members|
      ensures MemberAllowed(cwd, extractDir, members[j])
    {
      RelativeMemberAllowed(cwd, extractDir, members[j]);
    }
  }

  /** One rejected member anywhere in the archive stops the whole extraction, and the
      error names that member or an earlier one. */
  lemma EscapingMemberBlocksExtraction(cwd: string, extractDir: string, members: seq<string>, k: nat)
    requires k < |members| && !MemberAllowed(cwd, extractDir, members[k])
    ensures var r := ExtractResult(cwd, extractDir, members);
      r.Err? && r.error.PathTraversal? && r.error.index <= k
  {
    ExtractAllOrNothing(cwd, extractDir, members);
  }

  // ---- `_discover_rda` ----

  /** What `os.walk(root)` yields: each directory with its file names, in walk order. */
  type Walk = seq<(string, seq<string>)>

  const LocationsName: string := "locations.rda"
  const OtherName: string := "other.rda"

  /** `cand_loc` and `cand_other`; a joined path is never empty, so "set" is `Some`. */
  datatype Candidates = Candidates(loc: Option<string>, other: Option<string>) {
    predicate Complete() {
      loc.Some? && other.Some?
    }
  }

  /** The inner loop body: a file whose lower-cased name matches sets its candidate. */
  function ScanFile(c: Candidates, dir: string, fn: string): Candidates {
    var low := Lower(fn);
    if low == LocationsName then c.(loc := Some(Join(dir, fn)))
    else if low == OtherName then c.(other := Some(Join(dir, fn)))
    else c
  }

  function ScanDir(c: Candidates, dir: string, fns: seq<string>): Candidates
    decreases |fns|
  {
    if fns == [] then c else ScanFile(ScanDir(c, dir, fns[..|fns| - 1]), dir, fns[|fns| - 1])
  }

  /** The candidates after scanning every file of the given directories. */
  function ScanWalk(walk: Walk): Candidates
    decreases |walk|
  {
    if walk == [] then Candidates(None, None)
    else ScanDir(ScanWalk(walk[..|walk| - 1]), walk[|walk| - 1].0, walk[|walk| - 1].1)
  }

  /** How many directories the scan visits from the `j`-th on: it stops after the
      first directory at whose end both candidates are set. */
  function VisitedFrom(walk: Walk, j: nat): (v: nat)
    requires j <= |walk|
    ensures j <= v <= |walk|
    decreases |walk| - j
  {
    if j == |walk| || ScanWalk(walk[..j]).Complete() then j else VisitedFrom(walk, j + 1)
  }

  /** The scan stops at the first directory after which both candidates are set,
      and only the end of the walk stops it otherwise. */
  lemma {:induction false} VisitedFromStops(walk: Walk, j: nat)
    requires j <= |walk|
    ensures var v := VisitedFrom(walk, j);
      (v == |walk| || ScanWalk(walk[..v]).Complete())
      && forall k :: j <= k < v ==> !ScanWalk(walk[..k]).Complete()
    decreases |walk| - j
  {
    if !(j == |walk| || ScanWalk(walk[..j]).Complete()) {
      VisitedFromStops(walk, j + 1);
    }
  }

  /** The outcome of `_discover_rda`. */
  function Discover(walk: Walk): Result<(string, string), AnnotationError> {
    var c := ScanWalk(walk[..VisitedFrom(walk, 0)]);
    if c.Complete() then Ok((c.loc.value, c.other.value)) else Err(RdaNotFound)
  }

  // Reference definition: every matching file of the walk, in walk order.

  /** The directory holds the file. */
  predicate InWalk(walk: Walk, dir: string, fn: string) {
    exists i :: 0 <= i < |walk| && walk[i].0 == dir && fn in walk[i].1
  }

  function DirMatches(dir: string, fns: seq<string>, target: string): (r: seq<(string, string)>)
    ensures forall k :: 0 <= k < |r| ==> r[k].0 == dir && r[k].1 in fns && Lower(r[k].1) == target
    decreases |fns|
  {
    if fns == [] then []
    else
      DirMatches(dir, fns[..|fns| - 1], target)
      + (if Lower(fns[|fns| - 1]) == target then [(dir, fns[|fns| - 1])] else [])
  }

  /** The (directory, file name) pairs of the walk whose lower-cased name is `target`. */
  function Matches(walk: Walk, target: string): (r: seq<(string, string)>)
    ensures forall k :: 0 <= k < |r| ==> Lower(r[k].1) == target && InWalk(walk, r[k].0, r[k].1)
    decreases |walk|
  {
    if walk == [] then []
    else
      var init := walk[..|walk| - 1];
      var last := walk[|walk| - 1];
      var r := Matches(init, target) + DirMatches(last.0, last.1, target);
      assert forall k :: 0 <= k < |r| ==> InWalk(walk, r[k].0, r[k].1) by {
        forall k | 0 <= k < |r|
          ensures InWalk(walk, r[k].0, r[k].1)
        {
          if k < |Matches(init, target)| {
            var i :| 0 <= i < |init| && init[i].0 == r[k].0 && r[k].1 in init[i].1;
            assert walk[i] == init[i];
          } else {
            assert walk[|walk| - 1] == last;
          }
        }
      }
      r
  }

  /** Every file of the directory whose lower-cased name is `target` is a match. */
  lemma {:induction false} DirMatchesComplete(dir: string, fns: seq<string>, target: string, fn: string)
    requires fn in fns && Lower(fn) == target
    ensures (dir, fn) in DirMatches(dir, fns, target)
    decreases |fns|
  {
    var init := fns[..|fns| - 1];
    if fn != fns[|fns| - 1] {
      assert fns == init + [fns[|fns| - 1]];
      assert fn in init;
      DirMatchesComplete(dir, init, target, fn);
    }
  }

  /** Every walked file whose lower-cased name is `target` is a match. */
  lemma {:induction false} MatchesComplete(walk: Walk, target: string, dir: string, fn: string)
    requires InWalk(walk, dir, fn) && Lower(fn) == target
    ensures (dir, fn) in Matches(walk, target)
    decreases |walk|
  {
    var i :| 0 <= i < |walk| && walk[i].0 == dir && fn in walk[i].1;
    var init := walk[..|walk| - 1];
    if i == |walk| - 1 {
      DirMatchesComplete(dir, walk[i].1, target, fn);
    } else {
      assert init[i] == walk[i];
      MatchesComplete(init, target, dir, fn);
    }
  }

  /** No match exactly when no walked file lower-cases to `target`. */
  lemma MatchesEmptyIffAbsent(walk: Walk, target: string)
    ensures Matches(walk, target) == [] <==> forall dir, fn :: InWalk(walk, dir, fn) ==> Lower(fn) != target
  {
    if Matches(walk, target) == [] {
      forall dir, fn | InWalk(walk, dir, fn)
        ensures Lower(fn) != target
      {
        if Lower(fn) == target {
          MatchesComplete(walk, target, dir, fn);
        }
      }
    } else {
      var m := Matches(walk, target)[0];
      assert InWalk(walk, m.0, m.1) && Lower(m.1) == target;
    }
  }

  /** The path of the last match, or `fallback` when there is none. */
  function LastPath(ms: seq<(string, string)>, fallback: Option<string>): Option<string> {
    if ms == [] then fallback else Some(Join(ms[|ms| - 1].0, ms[|ms| - 1].1))
  }

  lemma LastPathAppend(xs: seq<(string, string)>, ys: seq<(string, string)>, fallback: Option<string>)
    ensures LastPath(xs + ys, fallback) == LastPath(ys, LastPath(xs, fallback))
  {
    if ys == [] {
      assert xs + ys == xs;
    } else {
      assert (xs + ys)[|xs + ys| - 1] == ys[|ys| - 1];
    }
  }

  /** Within one directory a later match overwrites an earlier one. */
  lemma {:induction false} ScanDirKeepsLast(c: Candidates, dir: string, fns: seq<string>)
    ensures ScanDir(c, dir, fns).loc == LastPath(DirMatches(dir, fns, LocationsName), c.loc)
    ensures ScanDir(c, dir, fns).other == LastPath(DirMatches(dir, fns, OtherName), c.other)
    decreases |fns|
  {
    if fns != [] {
      var init := fns[..|fns| - 1];
      var f := fns[|fns| - 1];
      ScanDirKeepsLast(c, dir, init);
      var l := if Lower(f) == LocationsName then [(dir, f)] else [];
      var o := if Lower(f) == OtherName then [(dir, f)] else [];
      LastPathAppend(DirMatches(dir, init, LocationsName), l, c.loc);
      LastPathAppend(DirMatches(dir, init, OtherName), o, c.other);
    }
  }

  /** Across the walk, each candidate is the path of the last match so far. */
  lemma {:induction false} ScanWalkKeepsLast(walk: Walk)
    ensures ScanWalk(walk).loc == LastPath(Matches(walk, LocationsName), None)
    ensures ScanWalk(walk).other == LastPath(Matches(walk, OtherName), None)
    decreases |walk|
  {
    if walk != [] {
      var init := walk[..|walk| - 1];
      var last := walk[|walk| - 1];
      ScanWalkKeepsLast(init);
      ScanDirKeepsLast(ScanWalk(init), last.0, last.1);
      LastPathAppend(Matches(init, LocationsName), DirMatches(last.0, last.1, LocationsName), None);
      LastPathAppend(Matches(init, OtherName), DirMatches(last.0, last.1, OtherName), None);
    }
  }

  lemma {:induction false} MatchesAppend(a: Walk, b: Walk, target: string)
    ensures Matches(a + b, target) == Matches(a, target) + Matches(b, target)
    decreases |b|
  {
    if b == [] {
      assert a + b == a;
    } else {
      var b0 := b[..|b| - 1];
      assert (a + b)[..|a + b| - 1] == a + b0;
      assert (a + b)[|a + b| - 1] == b[|b| - 1];
      MatchesAppend(a, b0, target);
    }
  }

  /** Each candidate equals the path of the last match in the visited directories. */
  lemma DiscoverKeepsLast(walk: Walk)
    ensures var c := ScanWalk(walk[..VisitedFrom(walk, 0)]);
      c.loc == LastPath(Matches(walk[..VisitedFrom(walk, 0)], LocationsName), None)
      && c.other == LastPath(Matches(walk[..VisitedFrom(walk, 0)], OtherName), None)
  {
    ScanWalkKeepsLast(walk[..VisitedFrom(walk, 0)]);
  }

  /** The matches among the visited directories come first among all matches. */
  lemma VisitedMatchesPrefix(walk: Walk, target: string)
    ensures var v := VisitedFrom(walk, 0);
      Matches(walk, target) == Matches(walk[..v], target) + Matches(walk[v..], target)
  {
    var v := VisitedFrom(walk, 0);
    assert walk == walk[..v] + walk[v..];
    MatchesAppend(walk[..v], walk[v..], target);
  }

  /** `_discover_rda` raises exactly when one of the two names never occurs in the
      whole walk, and then it has visited every directory. */
  lemma DiscoverFailsIffMissing(walk: Walk)
    ensures Discover(walk).Err? <==> Matches(walk, LocationsName) == [] || Matches(walk, OtherName) == []
    ensures Discover(walk).Err? ==> VisitedFrom(walk, 0) == |walk|
  {
    var v := VisitedFrom(walk, 0);
    VisitedFromStops(walk, 0);
    DiscoverKeepsLast(walk);
    VisitedMatchesPrefix(walk, LocationsName);
    VisitedMatchesPrefix(walk, OtherName);
    if v == |walk| {
      assert walk[..v] == walk;
      assert walk[v..] == [];
    }
  }

  /** The same, in terms of the walked files: `_discover_rda` raises exactly when no
      walked file lower-cases to `locations.rda`, or none to `other.rda`. */
  lemma DiscoverFailsIffAbsent(walk: Walk)
    ensures Discover(walk).Err? <==>
      (forall dir, fn :: InWalk(walk, dir, fn) ==> Lower(fn) != LocationsName)
      || (forall dir, fn :: InWalk(walk, dir, fn) ==> Lower(fn) != OtherName)
  {
    DiscoverFailsIffMissing(walk);
    MatchesEmptyIffAbsent(walk, LocationsName);
    MatchesEmptyIffAbsent(walk, OtherName);
  }

  /** On success the two paths are those of the last `locations.rda` and the last
      `other.rda` met among the visited directories: later matches overwrite earlier ones. */
  lemma DiscoverReturnsLastMatches(walk: Walk)
    requires Discover(walk).Ok?
    ensures var v := VisitedFrom(walk, 0);
      Some(Discover(walk).value.0) == LastPath(Matches(walk[..v], LocationsName), None)
      && Some(Discover(walk).value.1) == LastPath(Matches(walk[..v], OtherName), None)
  {
    DiscoverKeepsLast(walk);
  }

  /** The names returned lower-case to `locations.rda` and `other.rda`, and each is
      the join of a walked directory with one of its files. */
  lemma DiscoveredNames(walk: Walk)
    requires Discover(walk).Ok?
    ensures exists dir, fn :: InWalk(walk, dir, fn) && Lower(fn) == LocationsName && Discover(walk).value.0 == Join(dir, fn)
    ensures exists dir, fn :: InWalk(walk, dir, fn) && Lower(fn) == OtherName && Discover(walk).value.1 == Join(dir, fn)
  {
    DiscoverReturnsLastMatches(walk);
    var v := VisitedFrom(walk, 0);
    var l := LastMatchIsWalked(walk[..v], LocationsName);
    var o := LastMatchIsWalked(walk[..v], OtherName);
    InWalkPrefix(walk, v, l.0, l.1);
    InWalkPrefix(walk, v, o.0, o.1);
    assert InWalk(walk, l.0, l.1) && Lower(l.1) == LocationsName && Discover(walk).value.0 == Join(l.0, l.1);
    assert InWalk(walk, o.0, o.1) && Lower(o.1) == OtherName && Discover(walk).value.1 == Join(o.0, o.1);
  }

  /** The last match of a walk is a walked file of that name. */
  lemma LastMatchIsWalked(walk: Walk, target: string) returns (m: (string, string))
    requires Matches(walk, target) != []
    ensures LastPath(Matches(walk, target), None) == Some(Join(m.0, m.1))
    ensures InWalk(walk, m.0, m.1) && Lower(m.1) == target
  {
    var ms := Matches(walk, target);
    m := ms[|ms| - 1];
  }

  /** A file of the first `v` directories is a file of the walk. */
  lemma InWalkPrefix(walk: Walk, v: nat, dir: string, fn: string)
    requires v <= |walk| && InWalk(walk[..v], dir, fn)
    ensures InWalk(walk, dir, fn)
  {
    var i :| 0 <= i < v && walk[..v][i].0 == dir && fn in walk[..v][i].1;
    assert walk[i] == walk[..v][i];
  }

  /** Directories after the stopping point are never consulted: appending more of
      the walk after a successful discovery leaves the result unchanged. */
  lemma DiscoverIgnoresLaterDirectories(walk: Walk, rest: Walk)
    requires Discover(walk).Ok?
    ensures Discover(walk + rest) == Discover(walk)
  {
    var v := VisitedFrom(walk, 0);
    var w := walk + rest;
    var v2 := VisitedFrom(w, 0);
    VisitedFromStops(walk, 0);
    VisitedFromStops(w, 0);
    assert ScanWalk(walk[..v]).Complete();
    assert w[..v] == walk[..v];
    assert v2 <= v;
    assert w[..v2] == walk[..v2];
    assert v2 == v;
  }

  /** `_discover_rda(root)`: the nested scan with its early `break`. */
  method DiscoverRda(walk: Walk) returns (r: Result<(string, string), AnnotationError>)
    ensures r == Discover(walk)
  {
    var candLoc: Option<string> := None;
    var candOther: Option<string> := None;
    var i := 0;
    while i < |walk|
      invariant 0 <= i <= |walk|
      invariant Candidates(candLoc, candOther) == ScanWalk(walk[..i])
      invariant VisitedFrom(walk, 0) == VisitedFrom(walk, i)
      invariant !Candidates(candLoc, candOther).Complete()
    {
      var dirpath := walk[i].0;
      var filenames := walk[i].1;
      assert walk[..i + 1][..i] == walk[..i];
      var j := 0;
      while j < |filenames|
        invariant 0 <= j <= |filenames|
        invariant Candidates(candLoc, candOther) == ScanDir(ScanWalk(walk[..i]), dirpath, filenames[..j])
      {
        var fn := filenames[j];
        var low := Lower(fn);
        assert filenames[..j + 1][..j] == filenames[..j];
        assert ScanDir(ScanWalk(walk[..i]), dirpath, filenames[..j + 1])
            == ScanFile(Candidates(candLoc, candOther), dirpath, fn);
        if low == LocationsName {
          candLoc := Some(Join(dirpath, fn));
        } else if low == OtherName {
          candOther := Some(Join(dirpath, fn));
        }
        j := j + 1;
      }
      assert filenames[..j] == filenames;
      assert ScanWalk(walk[..i + 1]) == ScanDir(ScanWalk(walk[..i]), dirpath, filenames);
      i := i + 1;
      if candLoc.Some? && candOther.Some? {
        break;
      }
    }
    if !(candLoc.Some? && candOther.Some?) {
      return Err(RdaNotFound);
    }
    r := Ok((candLoc.value, candOther.value));
  }

  // ---- `AnnotationInspector` and the step plan of `run` ----

  const Step1: string := "Step 1 - Download annotation archive"
  const Step2: string := "Step 2 - Extract .tar.gz archive"
  const Step3: string := "Step 3 - Load and convert RDA files"
  const Step4: string := "Step 4 - Merge Locations and Other"
  const Step5: string := "Step 5 - Export annotation CSV"
  /** The titles of the RDA steps, and of all five steps in the order `run` runs them. */
  const RdaTitles: seq<string> := [Step3, Step4, Step5]
  const StepTitles: seq<string> := [Step1, Step2] + RdaTitles

  const RpyMissing: LogLine := Message("rpy2 not available. " + "Skipping RDA processing/CSV export.")
  const Finished: LogLine := Message("Finished successfully")

  /** A clock reading in whole seconds and a resource snapshot, as a timer takes them. */
  datatype Reading = Reading(time: int, snap: Snapshot)

  /** What one step's timer reads on entry and on exit. */
  datatype StepClock = StepClock(enter: Reading, exit: Reading)

  /** The readings of the five step timers. */
  datatype Clocks = Clocks(download: StepClock, extract: StepClock, load: StepClock, merge: StepClock, save: StepClock)

  /** What the outside world does during one `run`. */
  datatype RunEnv = RunEnv(
    cwd: string,               // the working directory `abspath` resolves against
    files: map<string, nat>,   // path to size before the run
    reply: HttpReply,          // what the archive URL answers
    archive: Option<seq<string>>, // the archive's member names, or `None` when `tarfile.open` raises
    unpacked: bool,            // `extractall` succeeds
    walk: Walk,                // `os.walk` of the extraction directory
    loaded: bool,              // the R bridge loads both files
    merged: bool,              // the inner join succeeds
    exported: Option<nat>)     // the size of the CSV written, or `None` when writing raises

  /** The lines one timed step adds: its start line, what the body logs, and the
      closing lines. */
  function StepLines(title: string, c: StepClock, inner: seq<LogLine>, raised: bool): seq<LogLine> {
    [Start(title)] + (inner + ExitLines(title, c.enter.snap, c.exit.snap, c.exit.time - c.enter.time, raised))
  }

  /** The outcome of `run` and the lines it logs. */
  datatype Trace = Trace(outcome: Result<map<string, nat>, AnnotationError>, log: seq<LogLine>)

  function SavedLine(outputCsv: string): LogLine {
    Message("Saved: " + outputCsv)
  }

  /** The body of step 3: discover the two files, then load them through the R bridge. */
  function LoadResult(env: RunEnv): Result<(string, string), AnnotationError> {
    match Discover(env.walk)
    case Err(e) => Err(e)
    case Ok(paths) => if env.loaded then Ok(paths) else Err(RdaLoadFailed)
  }

  /** What step 5 logs inside its timer: the saved line, once the CSV is written. */
  function SaveLines(outputCsv: string, exported: Option<nat>): seq<LogLine> {
    if exported.Some? then [SavedLine(outputCsv)] else []
  }

  /** Steps 3 to 5 of `run` and the closing line, given what step 3's body yields,
      the files after step 1 and what each of the three steps logs. */
  function RdaTrace(outputCsv: string, load: Result<(string, string), AnnotationError>, env: RunEnv,
                    files: map<string, nat>, log3: seq<LogLine>, log4: seq<LogLine>, log5: seq<LogLine>): Trace
  {
    if load.Err? then Trace(Err(load.error), log3)
    else if !env.merged then Trace(Err(MergeFailed), log3 + log4)
    else if env.exported.None? then Trace(Err(ExportFailed), log3 + log4 + log5)
    else Trace(Ok(files[outputCsv := env.exported.value]), log3 + log4 + log5 + [Finished])
  }

  /** Steps 3 to 5 of `run` and the closing line, timed by `clocks`. */
  function RdaSteps(outputCsv: string, load: Result<(string, string), AnnotationError>, env: RunEnv, clocks: Clocks,
                    files: map<string, nat>): Trace
  {
    RdaTrace(outputCsv, load, env, files,
             StepLines(Step3, clocks.load, [], load.Err?),
             StepLines(Step4, clocks.merge, [], !env.merged),
             StepLines(Step5, clocks.save, SaveLines(outputCsv, env.exported), env.exported.None?))
  }

  /** What `run` does after the archive is extracted: the RDA steps only when they
      are asked for and rpy2 is available; the warning when they are asked for but
      rpy2 is missing; then the closing line. */
  function AfterExtract(outputCsv: string, processRda: bool, rpy2Ok: bool, load: Result<(string, string), AnnotationError>,
                        env: RunEnv, clocks: Clocks, files: map<string, nat>): Trace
  {
    if processRda && rpy2Ok then RdaSteps(outputCsv, load, env, clocks, files)
    else if processRda then Trace(Ok(files), [RpyMissing, Finished])
    else Trace(Ok(files), [Finished])
  }

  /** `run` given what the bodies of steps 1 and 2 yield, what their timers log,
      and what the run does after step 2: a step that raises ends the run. */
  function RunTrace(d: Result<map<string, nat>, AnnotationError>, x: Result<seq<string>, AnnotationError>,
                    log1: seq<LogLine>, log2: seq<LogLine>, rest: Trace): Trace
  {
    if d.Err? then Trace(Err(d.error), log1)
    else if x.Err? then Trace(Err(x.error), log1 + log2)
    else Trace(rest.outcome, log1 + (log2 + rest.log))
  }

  /** `run` of an inspector with the given paths and switches: steps 1 and 2
      always, in that order; the rest works on the files step 1 leaves (an empty
      map stands in when step 1 raises, since the run then ends). */
  function RunPlan(tarPath: string, extractDir: string, outputCsv: string, processRda: bool, rpy2Ok: bool,
                   env: RunEnv, clocks: Clocks): Trace
  {
    var d := DownloadIfNeeded(env.files, tarPath, env.reply);
    var x := Extraction(env.cwd, extractDir, env.archive, env.unpacked);
    RunTrace(d, x, StepLines(Step1, clocks.download, [], d.Err?), StepLines(Step2, clocks.extract, [], x.Err?),
             AfterExtract(outputCsv, processRda, rpy2Ok, LoadResult(env), env, clocks, if d.Ok? then d.value else map[]))
  }

  lemma AppendAssoc(a: seq<LogLine>, b: seq<LogLine>, c: seq<LogLine>)
    ensures a + b + c == a + (b + c)
  {
  }

  /** The lines a timer appends around a body that logs `inner` make up the step's lines. */
  lemma StepLinesAfter(start: seq<LogLine>, title: string, c: StepClock, inner: seq<LogLine>, raised: bool)
    ensures start + [Start(title)] + inner + ExitLines(title, c.enter.snap, c.exit.snap, c.exit.time - c.enter.time, raised)
         == start + StepLines(title, c, inner, raised)
  {
    var e := ExitLines(title, c.enter.snap, c.exit.snap, c.exit.time - c.enter.time, raised);
    AppendAssoc(start + [Start(title)], inner, e);
    AppendAssoc(start, [Start(title)], inner + e);
  }

  // ---- What the run logs ----

  /** The titles of the steps started, in log order. */
  function StartTitles(log: seq<LogLine>): seq<string>
    decreases |log|
  {
    if log == [] then []
    else StartTitles(log[..|log| - 1]) + (if log[|log| - 1].Start? then [log[|log| - 1].title] else [])
  }

  lemma {:induction false} StartTitlesAppend(a: seq<LogLine>, b: seq<LogLine>)
    ensures StartTitles(a + b) == StartTitles(a) + StartTitles(b)
    ensures CountClosing(a + b) == CountClosing(a) + CountClosing(b)
    decreases |b|
  {
    if b == [] {
      assert a + b == a;
    } else {
      var b0 := b[..|b| - 1];
      assert (a + b)[..|a + b| - 1] == a + b0;
      assert (a + b)[|a + b| - 1] == b[|b| - 1];
      StartTitlesAppend(a, b0);
    }
  }

  /** Plain messages neither start nor close a step. */
  lemma {:induction false} MessagesOnly(ms: seq<LogLine>)
    requires forall i :: 0 <= i < |ms| ==> ms[i].Message?
    ensures StartTitles(ms) == [] && CountClosing(ms) == 0
    decreases |ms|
  {
    if ms != [] {
      MessagesOnly(ms[..|ms| - 1]);
    }
  }

  /** A closed step's log: it starts once, under `title`, closes once, on its last
      line, with a failure line exactly when the step raised, and holds neither
      the warning nor the closing line of the run. */
  predicate ClosedStep(l: seq<LogLine>, title: string, raised: bool) {
    StartTitles(l) == [title] && CountClosing(l) == 1
    && |l| > 0 && l[|l| - 1].IsClosing() && (l[|l| - 1].Fail? <==> raised)
    && Finished !in l && RpyMissing !in l
  }

  /** The end of a run's log: "Finished successfully" exactly when the run
      succeeds, and a failed step's closing line when it raises. */
  predicate EndsRun(t: Trace) {
    |t.log| > 0 && (t.outcome.Ok? <==> t.log[|t.log| - 1] == Finished)
    && (t.outcome.Err? ==> t.log[|t.log| - 1].Fail?)
  }

  lemma StepLinesShape(title: string, c: StepClock, inner: seq<LogLine>, raised: bool)
    requires forall i :: 0 <= i < |inner| ==> inner[i].Message? && inner[i] != Finished && inner[i] != RpyMissing
    ensures ClosedStep(StepLines(title, c, inner, raised), title, raised)
  {
    var e := ExitLines(title, c.enter.snap, c.exit.snap, c.exit.time - c.enter.time, raised);
    ExitClosesOnce(title, c.enter.snap, c.exit.snap, c.exit.time - c.enter.time, raised);
    MessagesOnly(inner);
    StartTitlesAppend(inner, e);
    StartTitlesAppend([Start(title)], inner + e);
    assert StartTitles([Start(title)]) == [title] by {
      assert [Start(title)][..0] == [];
    }
    assert StartTitles(e) == [] by {
      if !raised {
        assert e[..1][..0] == [];
      } else {
        assert e[..0] == [];
      }
    }
    assert CountClosing([Start(title)]) == 0 by {
      assert [Start(title)][..0] == [];
    }
  }

  lemma SaveLinesAreMessages(outputCsv: string, exported: Option<nat>)
    ensures var ms := SaveLines(outputCsv, exported);
      forall i :: 0 <= i < |ms| ==> ms[i].Message? && ms[i] != Finished && ms[i] != RpyMissing
  {
    var m := SavedLine(outputCsv);
    assert m.text[0] == 'S';
    assert Finished.text[0] == 'F';
    assert RpyMissing.text[0] == 'r';
  }

  /** Three closed steps run in order until one raises: the steps started are a
      prefix of the three, and each closes once. */
  lemma {:induction false} RdaTraceTitles(outputCsv: string, load: Result<(string, string), AnnotationError>, env: RunEnv,
                                          files: map<string, nat>, log3: seq<LogLine>, log4: seq<LogLine>,
                                          log5: seq<LogLine>, t3: string, t4: string, t5: string)
    requires ClosedStep(log3, t3, load.Err?)
    requires ClosedStep(log4, t4, !env.merged)
    requires ClosedStep(log5, t5, env.exported.None?)
    ensures var t := RdaTrace(outputCsv, load, env, files, log3, log4, log5);
      var ts := StartTitles(t.log);
      1 <= |ts| <= 3 && ts == [t3, t4, t5][..|ts|] && CountClosing(t.log) == |ts|
  {
    var titles := [t3, t4, t5];
    if load.Err? {
      assert titles[..1] == [t3];
    } else if !env.merged {
      StartTitlesAppend(log3, log4);
      assert titles[..2] == [t3] + [t4];
    } else {
      StartTitlesAppend(log3, log4);
      StartTitlesAppend(log3 + log4, log5);
      assert titles[..3] == [t3] + [t4] + [t5];
      if env.exported.Some? {
        StartTitlesAppend(log3 + log4 + log5, [Finished]);
        MessagesOnly([Finished]);
      }
    }
  }

  /** ... and the log ends as a run's does, without the rpy2 warning. */
  lemma RdaTraceEnds(outputCsv: string, load: Result<(string, string), AnnotationError>, env: RunEnv,
                     files: map<string, nat>, log3: seq<LogLine>, log4: seq<LogLine>, log5: seq<LogLine>,
                     t3: string, t4: string, t5: string)
    requires ClosedStep(log3, t3, load.Err?)
    requires ClosedStep(log4, t4, !env.merged)
    requires ClosedStep(log5, t5, env.exported.None?)
    ensures var t := RdaTrace(outputCsv, load, env, files, log3, log4, log5);
      EndsRun(t) && RpyMissing !in t.log
  {
  }

  /** Steps 3 to 5 start in order, each closes once, and the log ends as a run's does. */
  lemma RdaStepsShape(outputCsv: string, load: Result<(string, string), AnnotationError>, env: RunEnv, clocks: Clocks,
                      files: map<string, nat>)
    ensures var t := RdaSteps(outputCsv, load, env, clocks, files);
      var ts := StartTitles(t.log);
      1 <= |ts| <= 3 && ts == RdaTitles[..|ts|] && CountClosing(t.log) == |ts|
      && EndsRun(t) && RpyMissing !in t.log
  {
    StepLinesShape(Step3, clocks.load, [], load.Err?);
    StepLinesShape(Step4, clocks.merge, [], !env.merged);
    SaveLinesAreMessages(outputCsv, env.exported);
    StepLinesShape(Step5, clocks.save, SaveLines(outputCsv, env.exported), env.exported.None?);
    var log3 := StepLines(Step3, clocks.load, [], load.Err?);
    var log4 := StepLines(Step4, clocks.merge, [], !env.merged);
    var log5 := StepLines(Step5, clocks.save, SaveLines(outputCsv, env.exported), env.exported.None?);
    RdaTraceTitles(outputCsv, load, env, files, log3, log4, log5, Step3, Step4, Step5);
    RdaTraceEnds(outputCsv, load, env, files, log3, log4, log5, Step3, Step4, Step5);
  }

  /** After extraction: the RDA steps or the warning, then the closing line. */
  lemma AfterExtractShape(outputCsv: string, processRda: bool, rpy2Ok: bool, load: Result<(string, string), AnnotationError>,
                          env: RunEnv, clocks: Clocks, files: map<string, nat>)
    ensures var t := AfterExtract(outputCsv, processRda, rpy2Ok, load, env, clocks, files);
      var ts := StartTitles(t.log);
      (|ts| > 0 <==> processRda && rpy2Ok) && |ts| <= 3 && ts == RdaTitles[..|ts|]
      && CountClosing(t.log) == |ts| && EndsRun(t)
      && (RpyMissing in t.log <==> processRda && !rpy2Ok)
  {
    if processRda && rpy2Ok {
      RdaStepsShape(outputCsv, load, env, clocks, files);
    } else if processRda {
      MessagesOnly([RpyMissing, Finished]);
    } else {
      MessagesOnly([Finished]);
    }
  }

  /** Two closed steps, then the rest of the run if neither raised. */
  lemma {:induction false} RunTraceShape(d: Result<map<string, nat>, AnnotationError>,
                                         x: Result<seq<string>, AnnotationError>, log1: seq<LogLine>,
                                         log2: seq<LogLine>, rest: Trace, t1: string, t2: string, later: seq<string>,
                                         warned: bool)
    requires ClosedStep(log1, t1, d.Err?)
    requires ClosedStep(log2, t2, x.Err?)
    requires |StartTitles(rest.log)| <= |later| && StartTitles(rest.log) == later[..|StartTitles(rest.log)|]
    requires CountClosing(rest.log) == |StartTitles(rest.log)| && EndsRun(rest)
    requires RpyMissing in rest.log <==> warned
    ensures var t := RunTrace(d, x, log1, log2, rest);
      var ts := StartTitles(t.log);
      var ok2 := d.Ok? && x.Ok?;
      1 <= |ts| <= 2 + |later| && ts == ([t1, t2] + later)[..|ts|]
      && (|ts| >= 2 <==> d.Ok?)
      && (|ts| >= 3 <==> ok2 && |StartTitles(rest.log)| > 0)
      && (RpyMissing in t.log <==> ok2 && warned)
      && CountClosing(t.log) == |ts| && EndsRun(t)
  {
    var all := [t1, t2] + later;
    assert all[..1] == [t1];
    if d.Ok? {
      StartTitlesAppend(log1, log2);
      assert all[..2] == [t1, t2];
      if x.Ok? {
        StartTitlesAppend(log2, rest.log);
        StartTitlesAppend(log1, log2 + rest.log);
        var k := |StartTitles(rest.log)|;
        assert all[..2 + k] == [t1] + ([t2] + later[..k]);
      }
    }
  }

  /** The step plan of `run`: steps 1 and 2 always start first and in order; the
      started steps are a prefix of the five; steps 3 to 5 start exactly when the
      first two succeed and RDA processing is asked for with rpy2 available; the
      rpy2 warning is logged exactly when the first two succeed and RDA processing
      is asked for without rpy2. */
  lemma RunStepGating(tarPath: string, extractDir: string, outputCsv: string, processRda: bool, rpy2Ok: bool,
                      env: RunEnv, clocks: Clocks)
    ensures var t := RunPlan(tarPath, extractDir, outputCsv, processRda, rpy2Ok, env, clocks);
      var ts := StartTitles(t.log);
      var ok1 := DownloadIfNeeded(env.files, tarPath, env.reply).Ok?;
      var ok2 := ok1 && Extraction(env.cwd, extractDir, env.archive, env.unpacked).Ok?;
      1 <= |ts| <= 5 && ts == StepTitles[..|ts|]
      && (|ts| >= 2 <==> ok1)
      && (|ts| >= 3 <==> ok2 && processRda && rpy2Ok)
      && (RpyMissing in t.log <==> ok2 && processRda && !rpy2Ok)
  {
    RunPlanShape(tarPath, extractDir, outputCsv, processRda, rpy2Ok, env, clocks);
  }

  /** Every started step closes exactly once; a run that raises ends on the failed
      step's closing line, and one that does not ends on "Finished successfully". */
  lemma RunClosing(tarPath: string, extractDir: string, outputCsv: string, processRda: bool, rpy2Ok: bool,
                   env: RunEnv, clocks: Clocks)
    ensures var t := RunPlan(tarPath, extractDir, outputCsv, processRda, rpy2Ok, env, clocks);
      CountClosing(t.log) == |StartTitles(t.log)| && EndsRun(t)
  {
    RunPlanShape(tarPath, extractDir, outputCsv, processRda, rpy2Ok, env, clocks);
  }

  lemma RunPlanShape(tarPath: string, extractDir: string, outputCsv: string, processRda: bool, rpy2Ok: bool,
                     env: RunEnv, clocks: Clocks)
    ensures var t := RunPlan(tarPath, extractDir, outputCsv, processRda, rpy2Ok, env, clocks);
      var ts := StartTitles(t.log);
      var ok1 := DownloadIfNeeded(env.files, tarPath, env.reply).Ok?;
      var ok2 := ok1 && Extraction(env.cwd, extractDir, env.archive, env.unpacked).Ok?;
      1 <= |ts| <= 5 && ts == StepTitles[..|ts|]
      && (|ts| >= 2 <==> ok1)
      && (|ts| >= 3 <==> ok2 && processRda && rpy2Ok)
      && (RpyMissing in t.log <==> ok2 && processRda && !rpy2Ok)
      && CountClosing(t.log) == |ts| && EndsRun(t)
  {
    var d := DownloadIfNeeded(env.files, tarPath, env.reply);
    var x := Extraction(env.cwd, extractDir, env.archive, env.unpacked);
    var files := if d.Ok? then d.value else map[];
    StepLinesShape(Step1, clocks.download, [], d.Err?);
    StepLinesShape(Step2, clocks.extract, [], x.Err?);
    AfterExtractShape(outputCsv, processRda, rpy2Ok, LoadResult(env), env, clocks, files);
    RunTraceShape(d, x, StepLines(Step1, clocks.download, [], d.Err?), StepLines(Step2, clocks.extract, [], x.Err?),
                  AfterExtract(outputCsv, processRda, rpy2Ok, LoadResult(env), env, clocks, files),
                  Step1, Step2, RdaTitles, processRda && !rpy2Ok);
  }

  /** Python's `str(bool)`. */
  function BoolText(b: bool): string {
    if b then "True" else "False"
  }

  /** What `__init__` logs: the start line, `_log_startup_env`, and the usage report. */
  function StartupLines(url: string, dataDir: string, resultsDir: string, processRda: bool, rpy2Ok: bool,
                        snap: Snapshot): seq<LogLine>
  {
    [Message("Script started"),
     Message("data_dir: " + dataDir),
     Message("results_dir: " + resultsDir),
     Message("URL: " + url),
     Message("process_rda: " + BoolText(processRda)),
     Message("rpy2_available: " + BoolText(rpy2Ok)),
     Usage(snap)]
  }

  class AnnotationInspector {
    const url: string
    const dataDir: string
    const resultsDir: string
    const processRda: bool
    const tag: string
    const timeout: nat
    const logger: Logger
    const tarPath: string
    const extractDir: string
    const outputCsv: string
    const rpy2Ok: bool

    /** `__init__`: derives the three paths and logs the start-up lines. Whether
        rpy2 imported is passed in; `snap` is the usage report's snapshot. */
    constructor (url: string, dataDir: string, resultsDir: string, processRda: bool, tag: string,
                 timeout: nat, rpy2Available: bool, logger: Logger, snap: Snapshot)
      modifies logger
      ensures this.url == url && this.dataDir == dataDir && this.resultsDir == resultsDir
      ensures this.processRda == processRda && this.tag == tag && this.timeout == timeout
      ensures this.logger == logger && this.rpy2Ok == rpy2Available
      ensures tarPath == TarPath(dataDir) && extractDir == ExtractDir(dataDir, tag)
      ensures outputCsv == OutputCsv(dataDir, tag)
      ensures logger.lines == old(logger.lines) + StartupLines(url, dataDir, resultsDir, processRda, rpy2Available, snap)
    {
      this.url := url;
      this.dataDir := dataDir;
      this.resultsDir := resultsDir;
      this.processRda := processRda;
      this.tag := tag;
      this.timeout := timeout;
      this.logger := logger;
      tarPath := TarPath(dataDir);
      extractDir := ExtractDir(dataDir, tag);
      outputCsv := OutputCsv(dataDir, tag);
      rpy2Ok := rpy2Available;
      new;
      logger.Log(Message("Script started"));
      logger.Log(Message("data_dir: " + dataDir));
      logger.Log(Message("results_dir: " + resultsDir));
      logger.Log(Message("URL: " + url));
      logger.Log(Message("process_rda: " + BoolText(processRda)));
      logger.Log(Message("rpy2_available: " + BoolText(rpy2Ok)));
      logger.Log(Usage(snap));
    }

    /** `with StepTimer(title):` on entry: the timer logs the start line and
        reads the clock and a snapshot. */
    method OpenStep(title: string, c: StepClock) returns (t: StepTimer)
      modifies logger
      ensures fresh(t) && t.title == title && t.logger == logger
      ensures t.t0 == c.enter.time && t.before == Some(c.enter.snap)
      ensures logger.lines == old(logger.lines) + [Start(title)]
    {
      t := new StepTimer(title, logger);
      t.Enter(c.enter.time, c.enter.snap);
    }

    /** Leaving the `with` block, normally or by an exception: the step's lines
        are complete once the timer has logged how it ended. */
    method CloseStep(t: StepTimer, c: StepClock, raised: bool, ghost start: seq<LogLine>, ghost inner: seq<LogLine>)
      requires t.logger == logger && t.t0 == c.enter.time && t.before == Some(c.enter.snap)
      requires logger.lines == start + [Start(t.title)] + inner
      modifies logger
      ensures logger.lines == start + StepLines(t.title, c, inner, raised)
    {
      var suppressed := t.Exit(c.exit.time, c.exit.snap, raised);
      StepLinesAfter(start, t.title, c, inner, raised);
    }

    /** The `with StepTimer("Step 1 ...")` block. */
    method DownloadStep(env: RunEnv, clocks: Clocks) returns (d: Result<map<string, nat>, AnnotationError>)
      modifies logger
      ensures d == DownloadIfNeeded(env.files, tarPath, env.reply)
      ensures logger.lines == old(logger.lines) + StepLines(Step1, clocks.download, [], d.Err?)
    {
      ghost var start := logger.lines;
      var t := OpenStep(Step1, clocks.download);
      d := DownloadIfNeeded(env.files, tarPath, env.reply);
      CloseStep(t, clocks.download, d.Err?, start, []);
    }

    /** The `with StepTimer("Step 2 ...")` block. */
    method ExtractStep(env: RunEnv, clocks: Clocks) returns (x: Result<seq<string>, AnnotationError>)
      modifies logger
      ensures x == Extraction(env.cwd, extractDir, env.archive, env.unpacked)
      ensures logger.lines == old(logger.lines) + StepLines(Step2, clocks.extract, [], x.Err?)
    {
      ghost var start := logger.lines;
      var t := OpenStep(Step2, clocks.extract);
      x := SafeExtract(env.cwd, extractDir, env.archive, env.unpacked);
      CloseStep(t, clocks.extract, x.Err?, start, []);
    }

    /** The `with StepTimer("Step 3 ...")` block. */
    method LoadStep(env: RunEnv, clocks: Clocks) returns (load: Result<(string, string), AnnotationError>)
      modifies logger
      ensures load == LoadResult(env)
      ensures logger.lines == old(logger.lines) + StepLines(Step3, clocks.load, [], load.Err?)
    {
      ghost var start := logger.lines;
      var t := OpenStep(Step3, clocks.load);
      var found := DiscoverRda(env.walk);
      load := if found.Err? then Err(found.error) else if env.loaded then found else Err(RdaLoadFailed);
      CloseStep(t, clocks.load, load.Err?, start, []);
    }

    /** The `with StepTimer("Step 4 ...")` block. */
    method MergeStep(env: RunEnv, clocks: Clocks)
      modifies logger
      ensures logger.lines == old(logger.lines) + StepLines(Step4, clocks.merge, [], !env.merged)
    {
      ghost var start := logger.lines;
      var t := OpenStep(Step4, clocks.merge);
      CloseStep(t, clocks.merge, !env.merged, start, []);
    }

    /** The `with StepTimer("Step 5 ...")` block. */
    method SaveStep(env: RunEnv, clocks: Clocks)
      modifies logger
      ensures logger.lines == old(logger.lines)
        + StepLines(Step5, clocks.save, SaveLines(outputCsv, env.exported), env.exported.None?)
    {
      ghost var start := logger.lines;
      var t := OpenStep(Step5, clocks.save);
      if env.exported.Some? {
        logger.Log(SavedLine(outputCsv));
      }
      CloseStep(t, clocks.save, env.exported.None?, start, SaveLines(outputCsv, env.exported));
    }

    /** Steps 3 to 5 and the closing line. */
    method RunRdaSteps(env: RunEnv, clocks: Clocks, files: map<string, nat>)
      returns (outcome: Result<map<string, nat>, AnnotationError>)
      modifies logger
      ensures var t := RdaSteps(outputCsv, LoadResult(env), env, clocks, files);
        outcome == t.outcome && logger.lines == old(logger.lines) + t.log
    {
      ghost var start := logger.lines;
      var load := LoadStep(env, clocks);
      ghost var log3 := StepLines(Step3, clocks.load, [], load.Err?);
      if load.Err? {
        return Err(load.error);
      }
      MergeStep(env, clocks);
      ghost var log4 := StepLines(Step4, clocks.merge, [], !env.merged);
      AppendAssoc(start, log3, log4);
      if !env.merged {
        return Err(MergeFailed);
      }
      SaveStep(env, clocks);
      ghost var log5 := StepLines(Step5, clocks.save, SaveLines(outputCsv, env.exported), env.exported.None?);
      AppendAssoc(start, log3 + log4, log5);
      if env.exported.None? {
        return Err(ExportFailed);
      }
      outcome := Ok(files[outputCsv := env.exported.value]);
      logger.Log(Finished);
      AppendAssoc(start, log3 + log4 + log5, [Finished]);
    }

    /** The part of `run` after the extraction step. */
    method Finish(env: RunEnv, clocks: Clocks, files: map<string, nat>)
      returns (outcome: Result<map<string, nat>, AnnotationError>)
      modifies logger
      ensures var t := AfterExtract(outputCsv, processRda, rpy2Ok, LoadResult(env), env, clocks, files);
        outcome == t.outcome && logger.lines == old(logger.lines) + t.log
    {
      if processRda && rpy2Ok {
        outcome := RunRdaSteps(env, clocks, files);
      } else {
        if processRda {
          logger.Log(RpyMissing);
        }
        outcome := Ok(files);
        logger.Log(Finished);
      }
    }

    /** `run()`; `clocks` holds what each step's timer reads. */
    method Run(env: RunEnv, clocks: Clocks) returns (outcome: Result<map<string, nat>, AnnotationError>)
      modifies logger
      ensures var t := RunPlan(tarPath, extractDir, outputCsv, processRda, rpy2Ok, env, clocks);
        outcome == t.outcome && logger.lines == old(logger.lines) + t.log
    {
      ghost var start := logger.lines;
      var d := DownloadStep(env, clocks);
      if d.Err? {
        return Err(d.error);
      }
      ghost var log1 := StepLines(Step1, clocks.download, [], false);
      var x := ExtractStep(env, clocks);
      ghost var log2 := StepLines(Step2, clocks.extract, [], x.Err?);
      AppendAssoc(start, log1, log2);
      if x.Err? {
        return Err(x.error);
      }
      outcome := Finish(env, clocks, d.value);
      ghost var rest := AfterExtract(outputCsv, processRda, rpy2Ok, LoadResult(env), env, clocks, d.value);
      AppendAssoc(start + log1, log2, rest.log);
      AppendAssoc(start, log1, log2 + rest.log);
    }
  }
}
