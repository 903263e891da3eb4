/**
 * The file system as both scripts see it: a map from a path to the size of the
 * file there, in bytes.
 */
module FileStore {
  import opened Wrappers

  type Files = map<string, nat>

  /** The cache rule both scripts share: a file that exists with a size above zero
      is trusted as it is (`os.path.exists(p) and os.path.getsize(p) > 0`). */
  predicate CacheHit(files: Files, path: string) {
    path in files && files[path] > 0
  }

  /** The paths at which two file maps disagree: present in one only, or present in
      both with different sizes. */
  function Changed(a: Files, b: Files): set<string> {
    set p | p in a.Keys + b.Keys && !(p in a && p in b && a[p] == b[p])
  }

  /** `shutil.move(src, dst)` within one file system: a rename that replaces
      whatever `dst` held. It raises when `src` does not exist. */
  function Move(files: Files, src: string, dst: string): (r: Option<Files>)
    ensures r.Some? <==> src in files
    ensures r.Some? ==> dst in r.value && r.value[dst] == files[src]
    ensures r.Some? && src != dst ==> src !in r.value
    ensures r.Some? ==> Changed(files, r.value) <= {src, dst}
  {
    if src !in files then None
    else Some((files - {src})[dst := files[src]])
  }

  /** Moving a file onto itself changes nothing. */
  lemma MoveOntoItself(files: Files, p: string)
    requires p in files
    ensures Move(files, p, p) == Some(files)
  {
    assert (files - {p})[p := files[p]] == files;
  }
}
