/**
 * The GEO dataset inspector (`GeoDatasetFetcher`): its output paths, the SOFT
 * download with its cache short-circuit and rename of the downloaded file, and
 * the phenotype summary that flattens each sample's `"key: value"` strings into
 * one record and tallies the raw strings.
 */
module Geo {
  import opened Wrappers
  import opened Text
  import opened PosixPath
  import opened Telemetry
  import opened FileStore

  // ---- Output paths (`__init__`) ----

  function SoftPath(dataDir: string, geoId: string): string {
    Join(dataDir, "s00005_" + geoId + "_family.soft.gz")
  }

  function GseObjectPath(dataDir: string, geoId: string): string {
    Join(dataDir, "s00005_" + geoId + "_gse_object.joblib")
  }

  function PhenoCsv(resultsDir: string, geoId: string): string {
    Join(resultsDir, "s00005_" + geoId + "_phenotypes.csv")
  }

  function LogFile(resultsDir: string, geoId: string): string {
    Join(resultsDir, "s00005_download_dataset_" + geoId + ".txt")
  }

  /** Every output file sits directly under its directory, and the two files that
      share a directory never collide. */
  lemma OutputPaths(dataDir: string, resultsDir: string, geoId: string)
    ensures SoftPath(dataDir, geoId) == dataDir + Sep(dataDir) + "s00005_" + geoId + "_family.soft.gz"
    ensures GseObjectPath(dataDir, geoId) == dataDir + Sep(dataDir) + "s00005_" + geoId + "_gse_object.joblib"
    ensures PhenoCsv(resultsDir, geoId) == resultsDir + Sep(resultsDir) + "s00005_" + geoId + "_phenotypes.csv"
    ensures LogFile(resultsDir, geoId) == resultsDir + Sep(resultsDir) + "s00005_download_dataset_" + geoId + ".txt"
    ensures SoftPath(dataDir, geoId) != GseObjectPath(dataDir, geoId)
    ensures PhenoCsv(resultsDir, geoId) != LogFile(resultsDir, geoId)
  {
    var soft := "s00005_" + geoId + "_family.soft.gz";
    var gse := "s00005_" + geoId + "_gse_object.joblib";
    var csv := "s00005_" + geoId + "_phenotypes.csv";
    var log := "s00005_download_dataset_" + geoId + ".txt";
    assert soft[0] == 's' && gse[0] == 's' && csv[0] == 's' && log[0] == 's';
    assert |soft| != |gse| && |csv| != |log|;
  }

  // ---- `download_soft` ----

  /** What the download step can raise. */
  datatype GeoError =
    | FetchFailed            // `GEOparse.get_GEO` raised
    | MoveFailed(src: string) // `shutil.move` found no file to move

  /** `fn.startswith(geo_id) and fn.endswith(".soft.gz")`. */
  predicate IsSoftName(fn: string, geoId: string) {
    geoId <= fn && |fn| >= 8 && fn[|fn| - 8..] == ".soft.gz"
  }

  /** The index of the first listed name that names the downloaded SOFT file. */
  function FirstSoftName(listing: seq<string>, geoId: string): (r: Option<nat>)
    ensures r.None? <==> forall j :: 0 <= j < |listing| ==> !IsSoftName(listing[j], geoId)
    ensures r.Some? ==> r.value < |listing| && IsSoftName(listing[r.value], geoId)
    ensures r.Some? ==> forall j :: 0 <= j < r.value ==> !IsSoftName(listing[j], geoId)
  {
    if listing == [] then None
    else if IsSoftName(listing[0], geoId) then Some(0)
    else
      match FirstSoftName(listing[1..], geoId)
      case None => None
      case Some(k) => Some(k + 1)
  }

  /** The rename after the download: the first listed SOFT file is moved to the
      standard path unless it is already there. */
  function RenameSoft(dataDir: string, geoId: string, fetched: Files, listing: seq<string>): Result<Files, GeoError> {
    match FirstSoftName(listing, geoId)
    case None => Ok(fetched)
    case Some(i) =>
      var src := Join(dataDir, listing[i]);
      if src == SoftPath(dataDir, geoId) then Ok(fetched)
      else
        match Move(fetched, src, SoftPath(dataDir, geoId))
        case None => Err(MoveFailed(src))
        case Some(moved) => Ok(moved)
  }

  /** `download_soft` on the file map `files`. The GEOparse download is an input:
      `fetched` is the file map it leaves behind, or `None` when it raised, and
      `listing` is `os.listdir(data_dir)` after it, in the order given. */
  function SoftDownload(dataDir: string, geoId: string, files: Files, fetched: Option<Files>,
                        listing: seq<string>): (r: Result<Files, GeoError>)
    ensures CacheHit(files, SoftPath(dataDir, geoId)) ==> r == Ok(files)
    ensures r.Err? ==> !CacheHit(files, SoftPath(dataDir, geoId))
  {
    if CacheHit(files, SoftPath(dataDir, geoId)) then Ok(files)
    else if fetched.None? then Err(FetchFailed)
    else RenameSoft(dataDir, geoId, fetched.value, listing)
  }

  /** The `for fn in os.listdir(data_dir)` loop of `download_soft`, which stops at
      the first SOFT file. */
  method RenameFirstSoft(dataDir: string, geoId: string, fetched: Files, listing: seq<string>)
    returns (r: Result<Files, GeoError>)
    ensures r == RenameSoft(dataDir, geoId, fetched, listing)
  {
    var softPath := SoftPath(dataDir, geoId);
    var fs := fetched;
    var i := 0;
    while i < |listing|
      invariant 0 <= i <= |listing|
      invariant forall j :: 0 <= j < i ==> !IsSoftName(listing[j], geoId)
      invariant fs == fetched
    {
      var fn := listing[i];
      if IsSoftName(fn, geoId) {
        assert FirstSoftName(listing, geoId) == Some(i);
        var src := Join(dataDir, fn);
        if src != softPath {
          var moved := Move(fs, src, softPath);
          if moved.None? {
            return Err(MoveFailed(src));
          }
          fs := moved.value;
        }
        return Ok(fs);
      }
      i := i + 1;
    }
    assert FirstSoftName(listing, geoId) == None;
    r := Ok(fs);
  }

  /** On a cache miss with a successful download, at most one file is moved: only
      the first listed SOFT file and the target can differ from what the download
      left, and nothing differs when no listed name matches. */
  lemma AtMostOneMove(dataDir: string, geoId: string, files: Files, fetched: Option<Files>, listing: seq<string>)
    requires !CacheHit(files, SoftPath(dataDir, geoId)) && fetched.Some?
    requires SoftDownload(dataDir, geoId, files, fetched, listing).Ok?
    ensures var r := SoftDownload(dataDir, geoId, files, fetched, listing).value;
      match FirstSoftName(listing, geoId)
      case None => r == fetched.value
      case Some(i) => Changed(fetched.value, r) <= {Join(dataDir, listing[i]), SoftPath(dataDir, geoId)}
  {
    var r := SoftDownload(dataDir, geoId, files, fetched, listing).value;
    match FirstSoftName(listing, geoId)
    case None =>
    case Some(i) =>
      if Join(dataDir, listing[i]) == SoftPath(dataDir, geoId) {
        assert r == fetched.value;
        assert Changed(fetched.value, r) == {};
      }
  }

  /** The move puts the first listed SOFT file at the target and removes it from
      where it was; a non-empty download becomes a cache hit. */
  lemma MoveFillsTarget(dataDir: string, geoId: string, files: Files, fetched: Option<Files>, listing: seq<string>)
    requires !CacheHit(files, SoftPath(dataDir, geoId)) && fetched.Some?
    requires FirstSoftName(listing, geoId).Some?
    requires Join(dataDir, listing[FirstSoftName(listing, geoId).value]) in fetched.value
    ensures var src := Join(dataDir, listing[FirstSoftName(listing, geoId).value]);
      var r := SoftDownload(dataDir, geoId, files, fetched, listing);
      r.Ok? && SoftPath(dataDir, geoId) in r.value
      && r.value[SoftPath(dataDir, geoId)] == fetched.value[src]
      && (src != SoftPath(dataDir, geoId) ==> src !in r.value)
      && (fetched.value[src] > 0 ==> CacheHit(r.value, SoftPath(dataDir, geoId)))
  {
    var src := Join(dataDir, listing[FirstSoftName(listing, geoId).value]);
    if src == SoftPath(dataDir, geoId) {
      assert SoftDownload(dataDir, geoId, files, fetched, listing) == Ok(fetched.value);
    }
  }

  /** A listed SOFT file whose name does not already point at the target raises
      the move error only when it is missing from the file map. */
  lemma MoveErrorOnlyWhenMissing(dataDir: string, geoId: string, files: Files, fetched: Option<Files>, listing: seq<string>)
    requires !CacheHit(files, SoftPath(dataDir, geoId))
    ensures SoftDownload(dataDir, geoId, files, fetched, listing).Err? <==>
      (fetched.None?
       || (FirstSoftName(listing, geoId).Some?
           && Join(dataDir, listing[FirstSoftName(listing, geoId).value]) != SoftPath(dataDir, geoId)
           && Join(dataDir, listing[FirstSoftName(listing, geoId).value]) !in fetched.value))
  {
  }

  /** A second call after one that left a non-empty SOFT file changes nothing,
      whatever the download and the listing would give. */
  lemma SecondDownloadIdempotent(dataDir: string, geoId: string, files: Files, fetched: Option<Files>,
                                 listing: seq<string>, fetched2: Option<Files>, listing2: seq<string>)
    requires SoftDownload(dataDir, geoId, files, fetched, listing).Ok?
    requires CacheHit(SoftDownload(dataDir, geoId, files, fetched, listing).value, SoftPath(dataDir, geoId))
    ensures SoftDownload(dataDir, geoId, SoftDownload(dataDir, geoId, files, fetched, listing).value, fetched2, listing2)
         == SoftDownload(dataDir, geoId, files, fetched, listing)
  {
  }

  /** For a GEO id that does not start with `s` or `/` (such as `GSE40279`), a
      listed SOFT file never already sits at the target, so the move always runs. */
  lemma SoftNameNeverTarget(dataDir: string, geoId: string, fn: string)
    requires geoId != [] && geoId[0] != 's' && geoId[0] != '/'
    requires IsSoftName(fn, geoId)
    ensures Join(dataDir, fn) != SoftPath(dataDir, geoId)
  {
    var name := "s00005_" + geoId + "_family.soft.gz";
    var base := dataDir + Sep(dataDir);
    assert fn[0] == geoId[0];
    assert !IsAbs(fn) && name[0] == 's';
    assert Join(dataDir, fn) == base + fn;
    assert SoftPath(dataDir, geoId) == base + name;
    assert (base + fn)[|base|] == fn[0];
    assert (base + name)[|base|] == name[0];
  }

  /** What `download_soft` logs: the cache line, or the download line followed by
      the completion line when nothing raised. */
  function DownloadLines(geoId: string, softPath: string, hit: bool, ok: bool): seq<LogLine> {
    if hit then [Message("SOFT already present: " + softPath)]
    else
      [Message("Downloading " + geoId + " to " + softPath)]
      + (if ok then [Message("Download complete.")] else [])
  }

  // ---- `summarize_phenotypes` ----

  /** A GEO sample: its id and its metadata, a map from a field to its list of strings. */
  datatype Sample = Sample(id: string, metadata: map<string, seq<string>>)

  /** One row of the phenotype table. */
  type Record = map<string, string>

  const SampleIdKey: string := "sample_id"

  /** `gsm.metadata.get(field)`. */
  function FieldOf(s: Sample, field: string): Option<seq<string>> {
    if field in s.metadata then Some(s.metadata[field]) else None
  }

  /** The strings `if meta:` lets through: none when the field is missing or empty. */
  function Items(s: Sample, field: string): seq<string> {
    FieldOf(s, field).GetOr([])
  }

  /** What one item does to its record: `Some((k, v))` for `record[k] = v`,
      `None` for an item that sets nothing. */
  type Setting = Option<(string, string)>

  /** `item.split(":", 1)` when `":" in item`, with the key stripped and
      lower-cased and the value stripped. */
  function ParseItem(item: string): (r: Setting)
    ensures r.None? <==> ':' !in item
  {
    match IndexOf(item, ':')
    case None => None
    case Some(i) => Some((Lower(Strip(item[..i])), Strip(item[i + 1..])))
  }

  /** A parsed key is already lower-case and a parsed value already stripped. */
  lemma ParseItemNormalised(item: string)
    requires ':' in item
    ensures var kv := ParseItem(item).value; Lower(kv.0) == kv.0 && Strip(kv.1) == kv.1
  {
    var i := IndexOf(item, ':').value;
    var key := Strip(item[..i]);
    var value := item[i + 1..];
    assert ParseItem(item) == Some((Lower(key), Strip(value)));
    LowerIdempotent(key);
    StripIdempotent(value);
  }

  /** The split is at the first colon: the key has none, and the value keeps any
      further colons. */
  lemma ParseItemAtFirstColon(key: string, value: string)
    requires ':' !in key
    ensures ParseItem(key + ":" + value) == Some((Lower(Strip(key)), Strip(value)))
  {
    var item := key + ":" + value;
    IndexOfFirstColon(key, value);
    assert item[..|key|] == key && item[|key| + 1..] == value;
  }

  lemma NormaliseTimeKey()
    ensures Lower(Strip("Time")) == "time"
  {
    assert TrimLeft("Time") == "Time" && TrimRight("Time") == "Time";
    assert Lower("Time") == "time";
  }

  /** `"Time: 10:30 "` sets `time` to `10:30`. */
  lemma ParseTimeExample()
    ensures ParseItem("Time: 10:30 ") == Some(("time", "10:30"))
  {
    var item := "Time: 10:30 ";
    var key, value := "Time", " 10:30 ";
    assert item == key + ":" + value && ':' !in key;
    assert Strip(value) == "10:30" by {
      assert value == " " + "10:30" + " ";
      StripPadded("10:30");
    }
    assert Lower(Strip(key)) == "time" by {
      NormaliseTimeKey();
    }
    ParseItemAtFirstColon(key, value);
  }

  predicate Sets(kv: Setting, key: string) {
    kv.Some? && kv.value.0 == key
  }

  /** What each item of a list does, in order. */
  function Settings(items: seq<string>): seq<Setting> {
    seq(|items|, i requires 0 <= i < |items| => ParseItem(items[i]))
  }

  function Put(rec: Record, kv: Setting): Record {
    match kv
    case None => rec
    case Some((k, v)) => rec[k := v]
  }

  /** The inner loop over `meta`, applied to `rec` in order. */
  function Apply(rec: Record, kvs: seq<Setting>): Record
    decreases |kvs|
  {
    if kvs == [] then rec
    else Put(Apply(rec, kvs[..|kvs| - 1]), kvs[|kvs| - 1])
  }

  /** The record of one sample, seeded with its id. */
  function RecordOf(s: Sample, field: string): Record {
    Apply(map[SampleIdKey := s.id], Settings(Items(s, field)))
  }

  /** Keys are only ever added: the seeded `sample_id` is in every record. */
  lemma {:induction false} ApplyKeepsKeys(rec: Record, kvs: seq<Setting>)
    ensures rec.Keys <= Apply(rec, kvs).Keys
    decreases |kvs|
  {
    if kvs != [] {
      ApplyKeepsKeys(rec, kvs[..|kvs| - 1]);
    }
  }

  lemma RecordHasSampleId(s: Sample, field: string)
    ensures SampleIdKey in RecordOf(s, field)
  {
    ApplyKeepsKeys(map[SampleIdKey := s.id], Settings(Items(s, field)));
  }

  /** The last item that sets a key decides its value; earlier ones are overwritten. */
  lemma {:induction false} LastSettingWins(rec: Record, kvs: seq<Setting>, j: nat)
    requires j < |kvs| && kvs[j].Some?
    requires forall k :: j < k < |kvs| ==> !Sets(kvs[k], kvs[j].value.0)
    ensures kvs[j].value.0 in Apply(rec, kvs) && Apply(rec, kvs)[kvs[j].value.0] == kvs[j].value.1
    decreases |kvs|
  {
    var last := |kvs| - 1;
    if j < last {
      var init := kvs[..last];
      assert init[j] == kvs[j];
      forall k | j < k < |init|
        ensures !Sets(init[k], kvs[j].value.0)
      {
        assert init[k] == kvs[k];
      }
      LastSettingWins(rec, init, j);
      assert !Sets(kvs[last], kvs[j].value.0);
    }
  }

  /** A key no item sets keeps what the seed record had, present or absent. */
  lemma {:induction false} UnsetKeyKept(rec: Record, kvs: seq<Setting>, key: string)
    requires forall k :: 0 <= k < |kvs| ==> !Sets(kvs[k], key)
    ensures key in Apply(rec, kvs) <==> key in rec
    ensures key in rec ==> Apply(rec, kvs)[key] == rec[key]
    decreases |kvs|
  {
    if kvs != [] {
      var last := |kvs| - 1;
      var init := kvs[..last];
      assert !Sets(kvs[last], key);
      forall k | 0 <= k < last
        ensures !Sets(init[k], key)
      {
        assert init[k] == kvs[k];
      }
      UnsetKeyKept(rec, init, key);
    }
  }

  /** Only keys that some item sets join the seed record. */
  lemma NewKeysAreSet(rec: Record, kvs: seq<Setting>, key: string)
    requires key in Apply(rec, kvs) && key !in rec
    ensures exists k :: 0 <= k < |kvs| && Sets(kvs[k], key)
  {
    if forall k :: 0 <= k < |kvs| ==> !Sets(kvs[k], key) {
      UnsetKeyKept(rec, kvs, key);
    }
  }

  /** An item without a colon sets no key, though it is still counted. */
  lemma ItemWithoutColonSetsNothing(item: string, key: string)
    requires ':' !in item
    ensures !Sets(ParseItem(item), key)
  {
  }

  /** A sample whose field is missing or empty gives a record holding only its id. */
  lemma IdOnlyRecord(s: Sample, field: string)
    requires FieldOf(s, field).None? || FieldOf(s, field) == Some([])
    ensures RecordOf(s, field) == map[SampleIdKey := s.id]
  {
  }

  /** The sample id stays when no item's key normalises to `sample_id`. */
  lemma SampleIdKept(s: Sample, field: string)
    requires forall k :: 0 <= k < |Items(s, field)| ==> !Sets(ParseItem(Items(s, field)[k]), SampleIdKey)
    ensures SampleIdKey in RecordOf(s, field) && RecordOf(s, field)[SampleIdKey] == s.id
  {
    var items := Items(s, field);
    var kvs := Settings(items);
    forall k | 0 <= k < |kvs|
      ensures !Sets(kvs[k], SampleIdKey)
    {
      assert kvs[k] == ParseItem(items[k]);
    }
    UnsetKeyKept(map[SampleIdKey := s.id], kvs, SampleIdKey);
  }

  /** An item whose key normalises to `sample_id` overwrites the id when no later
      item sets that key again. */
  lemma SampleIdOverwritten(s: Sample, field: string, j: nat)
    requires j < |Items(s, field)| && Sets(ParseItem(Items(s, field)[j]), SampleIdKey)
    requires forall k :: j < k < |Items(s, field)| ==> !Sets(ParseItem(Items(s, field)[k]), SampleIdKey)
    ensures SampleIdKey in RecordOf(s, field)
    ensures RecordOf(s, field)[SampleIdKey] == ParseItem(Items(s, field)[j]).value.1
  {
    var items := Items(s, field);
    var kvs := Settings(items);
    assert kvs[j] == ParseItem(items[j]);
    forall k | j < k < |kvs|
      ensures !Sets(kvs[k], SampleIdKey)
    {
      assert kvs[k] == ParseItem(items[k]);
    }
    LastSettingWins(map[SampleIdKey := s.id], kvs, j);
  }

  /** `rows`: one record per sample, in order. */
  function Rows(samples: seq<Sample>, field: string): seq<Record>
    decreases |samples|
  {
    if samples == [] then []
    else Rows(samples[..|samples| - 1], field) + [RecordOf(samples[|samples| - 1], field)]
  }

  lemma {:induction false} RowsPerSample(samples: seq<Sample>, field: string)
    ensures |Rows(samples, field)| == |samples|
    ensures forall i :: 0 <= i < |samples| ==> Rows(samples, field)[i] == RecordOf(samples[i], field)
    decreases |samples|
  {
    if samples != [] {
      var init := samples[..|samples| - 1];
      RowsPerSample(init, field);
      forall i | 0 <= i < |init|
        ensures Rows(samples, field)[i] == RecordOf(samples[i], field)
      {
        assert init[i] == samples[i];
      }
    }
  }

  /** `values`: every sample's strings, concatenated in sample order. */
  function Values(samples: seq<Sample>, field: string): seq<string>
    decreases |samples|
  {
    if samples == [] then []
    else Values(samples[..|samples| - 1], field) + Items(samples[|samples| - 1], field)
  }

  /** How often `x` occurs in `xs`. */
  function Count(xs: seq<string>, x: string): nat
    decreases |xs|
  {
    if xs == [] then 0
    else Count(xs[..|xs| - 1], x) + (if xs[|xs| - 1] == x then 1 else 0)
  }

  lemma {:induction false} CountAppend(a: seq<string>, b: seq<string>, x: string)
    ensures Count(a + b, x) == Count(a, x) + Count(b, x)
    decreases |b|
  {
    if b != [] {
      var init := b[..|b| - 1];
      assert (a + b)[..|a + b| - 1] == a + init;
      assert (a + b)[|a + b| - 1] == b[|b| - 1];
      CountAppend(a, init, x);
    } else {
      assert a + b == a;
    }
  }

  /** The occurrences of `x` summed over the samples' own lists. */
  function SampleCount(samples: seq<Sample>, field: string, x: string): nat
    decreases |samples|
  {
    if samples == [] then 0
    else SampleCount(samples[..|samples| - 1], field, x) + Count(Items(samples[|samples| - 1], field), x)
  }

  function TotalItems(samples: seq<Sample>, field: string): nat
    decreases |samples|
  {
    if samples == [] then 0
    else TotalItems(samples[..|samples| - 1], field) + |Items(samples[|samples| - 1], field)|
  }

  lemma {:induction false} MultiplicityIsCount(xs: seq<string>, x: string)
    ensures multiset(xs)[x] == Count(xs, x)
    decreases |xs|
  {
    if xs != [] {
      var init := xs[..|xs| - 1];
      assert xs == init + [xs[|xs| - 1]];
      MultiplicityIsCount(init, x);
    }
  }

  /** `Counter(values)`: each raw string is counted as often as it occurs across
      all samples' lists, and the counts add up to the number of strings. */
  lemma {:induction false} TallyCounts(samples: seq<Sample>, field: string, x: string)
    ensures multiset(Values(samples, field))[x] == SampleCount(samples, field, x)
    ensures |multiset(Values(samples, field))| == TotalItems(samples, field)
    decreases |samples|
  {
    MultiplicityIsCount(Values(samples, field), x);
    if samples != [] {
      var init := samples[..|samples| - 1];
      TallyCounts(init, field, x);
      MultiplicityIsCount(Values(init, field), x);
      CountAppend(Values(init, field), Items(samples[|samples| - 1], field), x);
    }
  }

  /** The tally's labels in the order `Counter.items()` gives them: each value
      once, at its first occurrence. */
  function Distinct(xs: seq<string>): seq<string>
    decreases |xs|
  {
    if xs == [] then []
    else
      var d := Distinct(xs[..|xs| - 1]);
      if xs[|xs| - 1] in d then d else d + [xs[|xs| - 1]]
  }

  /** The labels are exactly the values, each once. */
  lemma {:induction false} DistinctLabels(xs: seq<string>)
    ensures forall x :: x in Distinct(xs) <==> x in xs
    ensures forall i, j :: 0 <= i < j < |Distinct(xs)| ==> Distinct(xs)[i] != Distinct(xs)[j]
    decreases |xs|
  {
    if xs != [] {
      var init := xs[..|xs| - 1];
      DistinctLabels(init);
      assert forall x :: x in xs <==> x in init || x == xs[|xs| - 1];
    }
  }

  /** `f"  {label}: {count}"`. */
  function CountLine(raw: string, count: nat): LogLine {
    Message("  " + raw + ": " + NatToString(count))
  }

  function CountLines(labels: seq<string>, tally: multiset<string>): seq<LogLine>
    decreases |labels|
  {
    if labels == [] then []
    else CountLines(labels[..|labels| - 1], tally) + [CountLine(labels[|labels| - 1], tally[labels[|labels| - 1]])]
  }

  lemma {:induction false} CountLinesPerLabel(labels: seq<string>, tally: multiset<string>)
    ensures |CountLines(labels, tally)| == |labels|
    ensures forall i :: 0 <= i < |labels| ==> CountLines(labels, tally)[i] == CountLine(labels[i], tally[labels[i]])
    decreases |labels|
  {
    if labels != [] {
      var init := labels[..|labels| - 1];
      CountLinesPerLabel(init, tally);
      forall i | 0 <= i < |init|
        ensures CountLines(labels, tally)[i] == CountLine(labels[i], tally[labels[i]])
      {
        assert init[i] == labels[i];
      }
    }
  }

  /** What `summarize_phenotypes` logs after its loops. */
  function SummaryLines(field: string, values: seq<string>, phenoCsv: string): seq<LogLine> {
    [Message("Metadata summary: " + field)]
      + CountLines(Distinct(values), multiset(values))
      + [Message(""), Message("Parsed phenotype CSV saved to: " + phenoCsv + "\n")]
  }

  /** The summary names every raw string exactly once, with its count, between
      the header and the closing lines. */
  lemma SummaryReportsEachValueOnce(field: string, values: seq<string>, phenoCsv: string)
    ensures var ls := SummaryLines(field, values, phenoCsv); var labels := Distinct(values);
      |ls| == |labels| + 3
      && ls[0] == Message("Metadata summary: " + field)
      && (forall i :: 0 <= i < |labels| ==> ls[i + 1] == CountLine(labels[i], multiset(values)[labels[i]]))
      && (forall x :: x in values <==> x in labels)
      && (forall i :: 0 <= i < |labels| ==> multiset(values)[labels[i]] > 0)
  {
    var labels := Distinct(values);
    var tally := multiset(values);
    var counts := CountLines(labels, tally);
    DistinctLabels(values);
    CountLinesPerLabel(labels, tally);
    var ls := SummaryLines(field, values, phenoCsv);
    assert ls == [Message("Metadata summary: " + field)] + counts
      + [Message(""), Message("Parsed phenotype CSV saved to: " + phenoCsv + "\n")];
    forall i | 0 <= i < |labels|
      ensures ls[i + 1] == CountLine(labels[i], tally[labels[i]])
    {
      assert ls[i + 1] == counts[i];
    }
    forall i | 0 <= i < |labels|
      ensures tally[labels[i]] > 0
    {
      assert labels[i] in values;
    }
  }

  lemma SettingsSnoc(items: seq<string>, j: nat)
    requires j < |items|
    ensures Settings(items[..j + 1]) == Settings(items[..j]) + [ParseItem(items[j])]
  {
    var a, b := Settings(items[..j + 1]), Settings(items[..j]) + [ParseItem(items[j])];
    assert |a| == |b|;
    forall k | 0 <= k < |a|
      ensures a[k] == b[k]
    {
      assert items[..j + 1][k] == items[k];
      if k < j {
        assert items[..j][k] == items[k];
      }
    }
  }

  lemma ApplySnoc(rec: Record, kvs: seq<Setting>, kv: Setting)
    ensures Apply(rec, kvs + [kv]) == Put(Apply(rec, kvs), kv)
  {
    assert (kvs + [kv])[..|kvs|] == kvs;
  }

  /** The inner `for item in meta` loop: sets each parsed key of `record` in turn. */
  method SetItems(record: Record, items: seq<string>) returns (r: Record)
    ensures r == Apply(record, Settings(items))
  {
    r := record;
    var j := 0;
    while j < |items|
      invariant 0 <= j <= |items|
      invariant r == Apply(record, Settings(items[..j]))
    {
      var item := items[j];
      var kv := ParseItem(item);
      if kv.Some? {  // `":" in item`
        r := r[kv.value.0 := kv.value.1];
      }
      SettingsSnoc(items, j);
      ApplySnoc(record, Settings(items[..j]), ParseItem(item));
      j := j + 1;
    }
    assert items[..j] == items;
  }

  /** The outer `for sample_id, gsm in gse.gsms.items()` loop: builds `rows` and
      extends `values`. */
  method FlattenSamples(samples: seq<Sample>, field: string) returns (rows: seq<Record>, values: seq<string>)
    ensures rows == Rows(samples, field)
    ensures values == Values(samples, field)
  {
    values := [];
    rows := [];
    var i := 0;
    while i < |samples|
      invariant 0 <= i <= |samples|
      invariant values == Values(samples[..i], field)
      invariant rows == Rows(samples[..i], field)
    {
      var s := samples[i];
      var record := map[SampleIdKey := s.id];
      var meta := FieldOf(s, field);
      if meta.Some? && meta.value != [] {
        values := values + meta.value;
        record := SetItems(record, meta.value);
      }
      rows := rows + [record];
      assert samples[..i + 1][..i] == samples[..i];
      i := i + 1;
    }
    assert samples[..i] == samples;
  }

  // ---- The fetcher ----

  class GeoDatasetFetcher {
    const geoId: string
    const logger: Logger
    const dataDir: string
    const resultsDir: string
    const softPath: string := SoftPath(dataDir, geoId)
    const gseObjectPath: string := GseObjectPath(dataDir, geoId)
    const phenoCsv: string := PhenoCsv(resultsDir, geoId)
    const logFile: string := LogFile(resultsDir, geoId)

    /** `__init__`: derives the four output paths; `data_dir` and `results_dir`
        come from the configuration and are passed in. */
    constructor (geoId: string, dataDir: string, resultsDir: string, logger: Logger)
      ensures this.geoId == geoId && this.logger == logger
      ensures this.dataDir == dataDir && this.resultsDir == resultsDir
      ensures softPath == SoftPath(dataDir, geoId) && gseObjectPath == GseObjectPath(dataDir, geoId)
      ensures phenoCsv == PhenoCsv(resultsDir, geoId) && logFile == LogFile(resultsDir, geoId)
    {
      this.geoId := geoId;
      this.logger := logger;
      this.dataDir := dataDir;
      this.resultsDir := resultsDir;
    }

    /** `download_soft()` on the file map `files`; see `SoftDownload` for the
        download's outcome and the listing. */
    method DownloadSoft(files: Files, fetched: Option<Files>, listing: seq<string>)
      returns (r: Result<Files, GeoError>)
      modifies logger
      ensures r == SoftDownload(dataDir, geoId, files, fetched, listing)
      ensures logger.lines == old(logger.lines) + DownloadLines(geoId, softPath, CacheHit(files, softPath), r.Ok?)
    {
      if CacheHit(files, softPath) {
        logger.Log(Message("SOFT already present: " + softPath));
        return Ok(files);
      }
      logger.Log(Message("Downloading " + geoId + " to " + softPath));
      if fetched.None? {
        return Err(FetchFailed);
      }
      r := RenameFirstSoft(dataDir, geoId, fetched.value, listing);
      if r.Err? {
        return;
      }
      logger.Log(Message("Download complete."));
    }

    /** `for label, count in counter.items()`: one line per distinct string. */
    method LogCounts(labels: seq<string>, tally: multiset<string>)
      modifies logger
      ensures logger.lines == old(logger.lines) + CountLines(labels, tally)
    {
      var k := 0;
      while k < |labels|
        invariant 0 <= k <= |labels|
        invariant logger.lines == old(logger.lines) + CountLines(labels[..k], tally)
      {
        logger.Log(CountLine(labels[k], tally[labels[k]]));
        assert labels[..k + 1][..k] == labels[..k];
        k := k + 1;
      }
      assert labels[..k] == labels;
    }

    /** The logging after the loops: the header, the counts, a blank line and
        where the table was saved. */
    method ReportTally(field: string, values: seq<string>, tally: multiset<string>)
      requires tally == multiset(values)
      modifies logger
      ensures logger.lines == old(logger.lines) + SummaryLines(field, values, phenoCsv)
    {
      var labels := Distinct(values);
      ghost var start := logger.lines;
      logger.Log(Message("Metadata summary: " + field));
      LogCounts(labels, tally);
      logger.Log(Message(""));
      logger.Log(Message("Parsed phenotype CSV saved to: " + phenoCsv + "\n"));
      ghost var counts := CountLines(labels, tally);
      assert logger.lines == start + ([Message("Metadata summary: " + field)] + counts
        + [Message(""), Message("Parsed phenotype CSV saved to: " + phenoCsv + "\n")]);
    }

    /** `summarize_phenotypes(gse, field)` over the samples of `gse.gsms`, in
        order. Returns the table handed to pandas and the `Counter` of raw strings. */
    method SummarizePhenotypes(samples: seq<Sample>, field: string)
      returns (rows: seq<Record>, tally: multiset<string>)
      modifies logger
      ensures rows == Rows(samples, field)
      ensures tally == multiset(Values(samples, field))
      ensures logger.lines == old(logger.lines) + SummaryLines(field, Values(samples, field), phenoCsv)
    {
      var values;
      rows, values := FlattenSamples(samples, field);
      tally := multiset(values);
      ReportTally(field, values, tally);
    }
  }
}
