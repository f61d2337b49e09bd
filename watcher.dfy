/** The file watcher: which new or moved files become pending jobs, which
    environment and client a file's path names, and the start-up scan of
    files already present in the watch directory. Paths use `/` as the
    separator. */
module FileWatcher {
  import opened Base
  import opened Config
  import opened Jobs

  // ---------------------------------------------------------------------
  // Environment and client from a path
  // ---------------------------------------------------------------------

  const Unknown: EnvInfo := EnvInfo("unknown", "unknown")

  /** The information of the first mapping entry whose pattern occurs in
      the path. */
  function FirstMatch(m: seq<(string, EnvInfo)>, path: string): (r: Option<EnvInfo>)
    ensures r.None? <==> forall i | 0 <= i < |m| :: !IsSubstring(m[i].0, path)
    ensures r.Some? ==> exists i | 0 <= i < |m| :: r.value == m[i].1 && IsSubstring(m[i].0, path) &&
                                                  forall j | 0 <= j < i :: !IsSubstring(m[j].0, path)
    decreases |m|
  {
    if m == [] then None
    else if IsSubstring(m[0].0, path) then Some(m[0].1)
    else
      var r := FirstMatch(m[1..], path);
      assert forall i | 1 <= i < |m| :: m[1..][i - 1] == m[i];
      r
  }

  predicate IsClientSegment(part: string) {
    StartsWith(part, "client-") || StartsWith(part, "Client-")
  }

  const EnvironmentKeys: seq<string> := ["prod", "dev", "test", "staging"]

  predicate IsEnvironmentSegment(part: string) {
    exists i | 0 <= i < |EnvironmentKeys| :: IsSubstring(EnvironmentKeys[i], part)
  }

  /** One path segment's effect: a client segment names the client, and
      otherwise a segment mentioning an environment keyword names the
      environment. */
  function SegmentStep(info: EnvInfo, part: string): EnvInfo {
    if IsClientSegment(part) then info.(client := part)
    else if IsEnvironmentSegment(part) then info.(environment := part)
    else info
  }

  function FromSegments(info: EnvInfo, parts: seq<string>): EnvInfo
    decreases |parts|
  {
    if parts == [] then info else SegmentStep(FromSegments(info, parts[..|parts| - 1]), parts[|parts| - 1])
  }

  /** The first matching pattern's information, else unknown. */
  function PatternInfo(path: string): EnvInfo {
    match FirstMatch(EnvironmentMapping, path)
    case None => Unknown
    case Some(i) => i
  }

  /** `_extract_environment_info`: the pattern information, overridden by
      the segments of a path with at least three parts. */
  function EnvironmentInfo(path: string): EnvInfo {
    var parts := Split(path, '/');
    if |parts| >= 3 then FromSegments(PatternInfo(path), parts) else PatternInfo(path)
  }

  /** The pattern loop of `_extract_environment_info`. */
  method MatchPatterns(path: string) returns (info: EnvInfo)
    ensures info == PatternInfo(path)
  {
    info := Unknown;
    var i := 0;
    while i < |EnvironmentMapping|
      invariant 0 <= i <= |EnvironmentMapping|
      invariant FirstMatch(EnvironmentMapping, path) == FirstMatch(EnvironmentMapping[i..], path)
      invariant info == Unknown
    {
      if IsSubstring(EnvironmentMapping[i].0, path) {
        info := EnvironmentMapping[i].1;
        break;
      }
      assert EnvironmentMapping[i..][1..] == EnvironmentMapping[i + 1..];
      i := i + 1;
    }
  }

  /** `_extract_environment_info`. */
  method ExtractEnvironmentInfo(path: string) returns (info: EnvInfo)
    ensures info == EnvironmentInfo(path)
  {
    info := MatchPatterns(path);
    ghost var base := info;
    var parts := Split(path, '/');
    if |parts| >= 3 {
      var j := 0;
      while j < |parts|
        invariant 0 <= j <= |parts|
        invariant info == FromSegments(base, parts[..j])
      {
        assert parts[..j + 1][..j] == parts[..j];
        var part := parts[j];
        if IsClientSegment(part) {
          info := info.(client := part);
        } else if IsEnvironmentSegment(part) {
          info := info.(environment := part);
        }
        j := j + 1;
      }
      assert parts[..j] == parts;
    }
  }

  /** What one segment changes: a client segment only the client, an
      environment segment only the environment. */
  lemma SegmentStepFields(info: EnvInfo, part: string)
    ensures SegmentStep(info, part).client == if IsClientSegment(part) then part else info.client
    ensures SegmentStep(info, part).environment ==
              if !IsClientSegment(part) && IsEnvironmentSegment(part) then part else info.environment
  {
  }

  /** The client is the last client segment, and without one it is the
      pattern's (or unknown). */
  lemma {:induction false} LastClientSegmentWins(info: EnvInfo, parts: seq<string>)
    ensures (forall j | 0 <= j < |parts| :: !IsClientSegment(parts[j])) ==>
              FromSegments(info, parts).client == info.client
    ensures forall k | 0 <= k < |parts| && IsClientSegment(parts[k]) &&
                       (forall j | k < j < |parts| :: !IsClientSegment(parts[j])) ::
              FromSegments(info, parts).client == parts[k]
    decreases |parts|
  {
    if parts != [] {
      var front := parts[..|parts| - 1];
      var last := parts[|parts| - 1];
      LastClientSegmentWins(info, front);
      SegmentStepFields(FromSegments(info, front), last);
      assert FromSegments(info, parts) == SegmentStep(FromSegments(info, front), last);
      assert forall j | 0 <= j < |front| :: front[j] == parts[j];
    }
  }

  /** The environment is the last segment naming one that is not a client
      segment, and without one it is the pattern's (or unknown). */
  lemma {:induction false} LastEnvironmentSegmentWins(info: EnvInfo, parts: seq<string>)
    ensures (forall j | 0 <= j < |parts| :: IsClientSegment(parts[j]) || !IsEnvironmentSegment(parts[j])) ==>
              FromSegments(info, parts).environment == info.environment
    ensures forall k | 0 <= k < |parts| && !IsClientSegment(parts[k]) && IsEnvironmentSegment(parts[k]) &&
                       (forall j | k < j < |parts| :: IsClientSegment(parts[j]) || !IsEnvironmentSegment(parts[j])) ::
              FromSegments(info, parts).environment == parts[k]
    decreases |parts|
  {
    if parts != [] {
      var front := parts[..|parts| - 1];
      var last := parts[|parts| - 1];
      LastEnvironmentSegmentWins(info, front);
      SegmentStepFields(FromSegments(info, front), last);
      assert FromSegments(info, parts) == SegmentStep(FromSegments(info, front), last);
      assert forall j | 0 <= j < |front| :: front[j] == parts[j];
    }
  }

  /** A path with fewer than three parts takes the first matching
      pattern's information, or unknown for both. */
  lemma ShortPathUsesPatterns(path: string)
    requires |Split(path, '/')| < 3
    ensures FirstMatch(EnvironmentMapping, path).None? ==> EnvironmentInfo(path) == Unknown
    ensures forall i | 0 <= i < |EnvironmentMapping| && IsSubstring(EnvironmentMapping[i].0, path) &&
                       (forall j | 0 <= j < i :: !IsSubstring(EnvironmentMapping[j].0, path)) ::
              EnvironmentInfo(path) == EnvironmentMapping[i].1
  {
    var m := EnvironmentMapping;
    forall i | 0 <= i < |m| && IsSubstring(m[i].0, path) && (forall j | 0 <= j < i :: !IsSubstring(m[j].0, path))
      ensures EnvironmentInfo(path) == m[i].1
    {
      var r := FirstMatch(m, path);
      var i' :| 0 <= i' < |m| && r.value == m[i'].1 && IsSubstring(m[i'].0, path) &&
                forall j | 0 <= j < i' :: !IsSubstring(m[j].0, path);
      assert i' == i;
    }
  }

  // ---------------------------------------------------------------------
  // New and moved files
  // ---------------------------------------------------------------------

  /** A file the handler queues: a supported extension and a readable
      size within the limit; `size` is `None` when
      `os.path.getsize` raises. */
  predicate Admitted(path: string, size: Option<nat>) {
    Supported(path) && size.Some? && size.value <= MaxFileSizeBytes
  }

  /** A supported extension, in any case. */
  predicate Supported(path: string) {
    Lower(Extension(path)) in SupportedExtensions
  }

  /** The job `_process_new_file` creates for an admitted file. */
  function WatchedJob(path: string, now: int): (j: Job)
    ensures j.status == Pending && j.filepath == path && j.filename == Basename(path)
    ensures j.vcenterEnvironment == Some(EnvironmentInfo(path).environment)
    ensures j.clientName == Some(EnvironmentInfo(path).client)
  {
    var info := EnvironmentInfo(path);
    NewJob(Basename(path), path, Some(info.environment), Some(info.client), now)
  }

  /** `_process_new_file` with the duplicate check the handler means: an
      admitted file is queued unless a pending or processing job for the
      same path exists. */
  function NewFile(t: Table, path: string, size: Option<nat>, now: int): (r: Table)
    requires WellFormed(t)
    ensures WellFormed(r)
    ensures Admitted(path, size) && FindJob(t, path, true).None? ==>
              r.jobs.Keys == t.jobs.Keys + {t.nextId} && r.jobs[t.nextId] == WatchedJob(path, now) &&
              (forall id | id in t.jobs :: r.jobs[id] == t.jobs[id])
    ensures !(Admitted(path, size) && FindJob(t, path, true).None?) ==> r == t
  {
    if Admitted(path, size) && FindJob(t, path, true).None? then Insert(t, WatchedJob(path, now)) else t
  }

  /** The duplicate query as written: `filter_by` takes column names only,
      so `status__in` makes SQLAlchemy raise. */
  function ActiveJobQueryAsWritten(t: Table, path: string): Result<Option<nat>> {
    Err(InvalidRequest("Entity namespace for \"processing_job\" has no property \"status__in\""))
  }

  /** `_process_new_file` as written: the handler catches the query's
      exception and logs it. */
  function NewFileAsWritten(t: Table, path: string, size: Option<nat>, now: int): Table {
    if !Admitted(path, size) then t
    else match ActiveJobQueryAsWritten(t, path)
      case Err(_) => t
      case Ok(Some(_)) => t
      case Ok(None) => Insert(t, WatchedJob(path, now))
  }

  /** As written, the watcher never queues anything. */
  lemma AsWrittenNeverQueues(t: Table, path: string, size: Option<nat>, now: int)
    ensures NewFileAsWritten(t, path, size, now) == t
  {
  }

  /** A file named `stem.json` in a directory has a supported extension,
      when the stem has neither a dot nor a slash. */
  lemma JsonFileIsSupported(dir: string, stem: string)
    requires stem != [] && '.' !in stem && '/' !in stem
    ensures Supported(dir + "/" + stem + ".json")
  {
    ExtensionOfName(dir, stem, ".json");
    JsonIsSupported(dir + "/" + stem + ".json");
  }

  lemma JsonIsSupported(path: string)
    requires Extension(path) == ".json"
    ensures Supported(path)
  {
    LowerJson();
    assert SupportedExtensions[0] == ".json";
  }

  /** Every file the watcher would admit is lost as written and queued as
      intended, on an empty table. */
  lemma AsWrittenDropsNewFile(path: string, size: Option<nat>, now: int)
    requires Admitted(path, size)
    ensures var t := Table(map[], 1);
      NewFileAsWritten(t, path, size, now).jobs == map[] &&
      NewFile(t, path, size, now).jobs.Keys == {1}
  {
  }

  /** A small JSON export in the watched directory is such a file. */
  lemma SampleFileIsAdmitted()
    ensures Admitted(WatchDirectory + "/" + "vm_data" + ".json", Some(1024))
  {
    JsonFileIsSupported(WatchDirectory, "vm_data");
  }

  /** A new file is queued exactly when it is admitted and no active job
      for it exists; the file's active jobs stay unique. */
  lemma NewFileKeepsActiveUnique(t: Table, path: string, size: Option<nat>, now: int)
    requires WellFormed(t) && ActiveUnique(t)
    ensures ActiveUnique(NewFile(t, path, size, now))
  {
    if Admitted(path, size) && FindJob(t, path, true).None? {
      InsertKeepsActiveUnique(t, WatchedJob(path, now));
    }
  }

  /** A second event for the same file changes nothing. */
  lemma NewFileIdempotent(t: Table, path: string, size: Option<nat>, now: int, later: int)
    requires WellFormed(t)
    ensures var r := NewFile(t, path, size, now);
      NewFile(r, path, size, later) == r
  {
    var r := NewFile(t, path, size, now);
    if Admitted(path, size) && FindJob(t, path, true).None? {
      assert Matches(r.jobs[t.nextId], path, true);
    }
  }

  /** `_process_new_file` on the job table. */
  method ProcessNewFile(store: JobStore, path: string, size: Option<nat>, now: int)
    requires WellFormed(store.Snapshot())
    modifies store
    ensures store.Snapshot() == NewFile(old(store.Snapshot()), path, size, now)
  {
    var filename := Basename(path);
    var ext := Lower(Extension(path));
    if ext !in SupportedExtensions {
      return;
    }
    if size.None? || size.value > MaxFileSizeBytes {
      return;
    }
    var info := ExtractEnvironmentInfo(path);
    var existing := FindJob(store.Snapshot(), path, true);
    if existing.Some? {
      return;
    }
    var job := NewJob(filename, path, Some(info.environment), Some(info.client), now);
    var id := store.Add(job);
  }

  /** A watchdog event. */
  datatype Event =
    | Created(srcPath: string, isDirectory: bool)
    | MovedTo(srcPath: string, destPath: string, isDirectory: bool)

  /** The file an event is about: the created file, or a move's
      destination; directory events are ignored. */
  function EventTarget(e: Event): (r: Option<string>)
    ensures r.Some? <==> !e.isDirectory
    ensures r.Some? && e.Created? ==> r.value == e.srcPath
    ensures r.Some? && e.MovedTo? ==> r.value == e.destPath
  {
    if e.isDirectory then None
    else match e
      case Created(src, _) => Some(src)
      case MovedTo(_, dest, _) => Some(dest)
  }

  /** `on_created` and `on_moved`; `sizes` is `os.path.getsize`. */
  method OnEvent(store: JobStore, e: Event, sizes: string -> Option<nat>, now: int)
    requires WellFormed(store.Snapshot())
    modifies store
    ensures store.Snapshot() == match EventTarget(e)
                                case None => old(store.Snapshot())
                                case Some(p) => NewFile(old(store.Snapshot()), p, sizes(p), now)
  {
    var target := EventTarget(e);
    if target.Some? {
      ProcessNewFile(store, target.value, sizes(target.value), now);
    }
  }

  // ---------------------------------------------------------------------
  // Start-up scan
  // ---------------------------------------------------------------------

  /** What `os.walk` yields: each directory with the names of its files. */
  type Walk = seq<(string, seq<string>)>

  /** One directory's files, each with the directory. */
  function Pairs(root: string, files: seq<string>): (r: seq<(string, string)>)
    ensures |r| == |files| && forall k | 0 <= k < |r| :: r[k] == (root, files[k])
  {
    seq(|files|, k requires 0 <= k < |files| => (root, files[k]))
  }

  /** Every (directory, file) pair of the walk, in walk order. */
  function Entries(walk: Walk): seq<(string, string)>
    decreases |walk|
  {
    if walk == [] then [] else Entries(walk[..|walk| - 1]) + Pairs(walk[|walk| - 1].0, walk[|walk| - 1].1)
  }

  /** One file of the scan: a supported file no job of any status names is
      queued, untagged. */
  function ScanEntry(t: Table, e: (string, string), now: int): (r: Table)
    requires WellFormed(t)
    ensures WellFormed(r) && t.jobs.Keys <= r.jobs.Keys && r.nextId >= t.nextId
    ensures forall id | id in t.jobs :: r.jobs[id] == t.jobs[id]
  {
    var path := Join(e.0, e.1);
    if Supported(path) && FindJob(t, path, false).None? then Insert(t, NewJob(e.1, path, None, None, now)) else t
  }

  function ScanAll(t: Table, es: seq<(string, string)>, now: int): (r: Table)
    requires WellFormed(t)
    ensures WellFormed(r) && t.jobs.Keys <= r.jobs.Keys && r.nextId >= t.nextId
    ensures forall id | id in t.jobs :: r.jobs[id] == t.jobs[id]
    decreases |es|
  {
    if es == [] then t else ScanEntry(ScanAll(t, es[..|es| - 1], now), es[|es| - 1], now)
  }

  lemma EntriesStep(walk: Walk, d: nat)
    requires d < |walk|
    ensures Entries(walk[..d + 1]) == Entries(walk[..d]) + Pairs(walk[d].0, walk[d].1)
  {
    assert walk[..d + 1][..d] == walk[..d];
  }

  lemma ScanAllSnoc(t: Table, es: seq<(string, string)>, e: (string, string), now: int)
    requires WellFormed(t)
    ensures ScanAll(t, es + [e], now) == ScanEntry(ScanAll(t, es, now), e, now)
  {
    assert (es + [e])[..|es|] == es;
  }

  /** Scanning one more file after a prefix of a directory. */
  lemma ScanStep(t: Table, before: seq<(string, string)>, root: string, files: seq<string>, k: nat, now: int)
    requires WellFormed(t) && k < |files|
    ensures ScanAll(t, before + Pairs(root, files[..k + 1]), now) ==
            ScanEntry(ScanAll(t, before + Pairs(root, files[..k]), now), (root, files[k]), now)
  {
    assert Pairs(root, files[..k + 1]) == Pairs(root, files[..k]) + [(root, files[k])];
    assert before + Pairs(root, files[..k + 1]) == (before + Pairs(root, files[..k])) + [(root, files[k])];
    ScanAllSnoc(t, before + Pairs(root, files[..k]), (root, files[k]), now);
  }

  /** The body of the scan's inner loop: one file of one directory. */
  method ScanFile(store: JobStore, root: string, file: string, now: int)
    requires WellFormed(store.Snapshot())
    modifies store
    ensures store.Snapshot() == ScanEntry(old(store.Snapshot()), (root, file), now)
  {
    var filepath := Join(root, file);
    var fileExt := Lower(Extension(filepath));
    if fileExt in SupportedExtensions {
      var existing := FindJob(store.Snapshot(), filepath, false);
      if existing.None? {
        var id := store.Add(NewJob(file, filepath, None, None, now));
      }
    }
  }

  /** `scan_existing_files` on the job table. */
  method ScanExistingFiles(store: JobStore, walk: Walk, now: int)
    requires WellFormed(store.Snapshot())
    modifies store
    ensures store.Snapshot() == ScanAll(old(store.Snapshot()), Entries(walk), now)
  {
    ghost var t0 := store.Snapshot();
    var d := 0;
    while d < |walk|
      invariant 0 <= d <= |walk|
      invariant store.Snapshot() == ScanAll(t0, Entries(walk[..d]), now)
    {
      var root := walk[d].0;
      var files := walk[d].1;
      EntriesStep(walk, d);
      ghost var before := Entries(walk[..d]);
      assert before + Pairs(root, files[..0]) == before;
      var k := 0;
      while k < |files|
        invariant 0 <= k <= |files|
        invariant store.Snapshot() == ScanAll(t0, before + Pairs(root, files[..k]), now)
      {
        ScanStep(t0, before, root, files, k, now);
        ScanFile(store, root, files[k], now);
        k := k + 1;
      }
      assert files[..k] == files;
      d := d + 1;
    }
    assert walk[..d] == walk;
  }

  /** Some job, of any status, names the path. */
  predicate HasJob(t: Table, path: string) {
    exists id | id in t.jobs :: t.jobs[id].filepath == path
  }

  /** After the scan every supported file of the walk has a job. */
  lemma {:induction false} ScanCovers(t: Table, es: seq<(string, string)>, now: int)
    requires WellFormed(t)
    ensures forall k | 0 <= k < |es| && Supported(Join(es[k].0, es[k].1)) :: HasJob(ScanAll(t, es, now), Join(es[k].0, es[k].1))
    decreases |es|
  {
    if es != [] {
      var front := es[..|es| - 1];
      ScanCovers(t, front, now);
      var before := ScanAll(t, front, now);
      var e := es[|es| - 1];
      var path := Join(e.0, e.1);
      forall k | 0 <= k < |es| && Supported(Join(es[k].0, es[k].1))
        ensures HasJob(ScanAll(t, es, now), Join(es[k].0, es[k].1))
      {
        var r := ScanAll(t, es, now);
        if k < |es| - 1 {
          assert es[k] == front[k];
          var id :| id in before.jobs && before.jobs[id].filepath == Join(es[k].0, es[k].1);
          assert r.jobs[id] == before.jobs[id];
        } else if FindJob(before, path, false).None? {
          assert r.jobs[before.nextId].filepath == path;
        } else {
          var id := FindJob(before, path, false).value;
          assert r.jobs[id].filepath == path;
        }
      }
    }
  }

  /** The scan queues only pending, untagged jobs for supported files it
      walked, and only for files that had no job before. */
  lemma ScanAddsOnlyNewSupported(t: Table, es: seq<(string, string)>, now: int)
    requires WellFormed(t)
    ensures var r := ScanAll(t, es, now);
      forall id | id in r.jobs && id !in t.jobs ::
        r.jobs[id].status == Pending && Supported(r.jobs[id].filepath) && !HasJob(t, r.jobs[id].filepath) &&
        r.jobs[id].vcenterEnvironment.None? && r.jobs[id].clientName.None? &&
        exists k | 0 <= k < |es| :: r.jobs[id].filepath == Join(es[k].0, es[k].1)
  {
    var r := ScanAll(t, es, now);
    forall id | id in r.jobs && id !in t.jobs
      ensures r.jobs[id].status == Pending && Supported(r.jobs[id].filepath) && !HasJob(t, r.jobs[id].filepath) &&
              r.jobs[id].vcenterEnvironment.None? && r.jobs[id].clientName.None? &&
              exists k | 0 <= k < |es| :: r.jobs[id].filepath == Join(es[k].0, es[k].1)
    {
      ScanJobOrigin(t, es, now, id);
    }
  }

  /** Where one job the scan added comes from: some entry of the walk. */
  lemma {:induction false} ScanJobOrigin(t: Table, es: seq<(string, string)>, now: int, id: nat)
    requires WellFormed(t)
    requires id in ScanAll(t, es, now).jobs && id !in t.jobs
    ensures var j := ScanAll(t, es, now).jobs[id];
      j.status == Pending && Supported(j.filepath) && !HasJob(t, j.filepath) &&
      j.vcenterEnvironment.None? && j.clientName.None? &&
      exists k | 0 <= k < |es| :: j.filepath == Join(es[k].0, es[k].1)
    decreases |es|
  {
    var front := es[..|es| - 1];
    var before := ScanAll(t, front, now);
    if id in before.jobs {
      ScanJobOrigin(t, front, now, id);
      var k :| 0 <= k < |front| && before.jobs[id].filepath == Join(front[k].0, front[k].1);
      assert es[k] == front[k];
    } else {
      ScanEntryAddsNew(t, before, es[|es| - 1], now, id);
    }
  }

  /** The one job a scan step can add is a fresh, pending, untagged job for
      the supported file of that entry, which had no job before the scan. */
  lemma ScanEntryAddsNew(t: Table, before: Table, e: (string, string), now: int, id: nat)
    requires WellFormed(t) && WellFormed(before)
    requires forall i | i in t.jobs :: i in before.jobs && before.jobs[i] == t.jobs[i]
    requires id in ScanEntry(before, e, now).jobs && id !in before.jobs
    ensures var j := ScanEntry(before, e, now).jobs[id];
      j == NewJob(e.1, Join(e.0, e.1), None, None, now) &&
      Supported(j.filepath) && !HasJob(t, j.filepath)
  {
    var path := Join(e.0, e.1);
    assert Supported(path) && FindJob(before, path, false).None?;
  }

  /** A scan over files that all have a job, or are unsupported, changes
      nothing. */
  lemma {:induction false} ScanOfCoveredIsIdentity(t: Table, es: seq<(string, string)>, now: int)
    requires WellFormed(t)
    requires forall k | 0 <= k < |es| && Supported(Join(es[k].0, es[k].1)) :: HasJob(t, Join(es[k].0, es[k].1))
    ensures ScanAll(t, es, now) == t
    decreases |es|
  {
    if es != [] {
      var front := es[..|es| - 1];
      assert forall k | 0 <= k < |front| :: front[k] == es[k];
      ScanOfCoveredIsIdentity(t, front, now);
      var path := Join(es[|es| - 1].0, es[|es| - 1].1);
      if Supported(path) {
        var id :| id in t.jobs && t.jobs[id].filepath == path;
        assert Matches(t.jobs[id], path, false);
      }
    }
  }

  /** Scanning twice is scanning once. */
  lemma ScanIdempotent(t: Table, walk: Walk, now: int, later: int)
    requires WellFormed(t)
    ensures var r := ScanAll(t, Entries(walk), now);
      ScanAll(r, Entries(walk), later) == r
  {
    ScanCovers(t, Entries(walk), now);
    ScanOfCoveredIsIdentity(ScanAll(t, Entries(walk), now), Entries(walk), later);
  }

  /** The scan keeps the files' active jobs unique: it only queues files
      with no job at all. */
  lemma {:induction false} ScanKeepsActiveUnique(t: Table, es: seq<(string, string)>, now: int)
    requires WellFormed(t) && ActiveUnique(t)
    ensures ActiveUnique(ScanAll(t, es, now))
    decreases |es|
  {
    if es != [] {
      var front := es[..|es| - 1];
      ScanKeepsActiveUnique(t, front, now);
      var before := ScanAll(t, front, now);
      var e := es[|es| - 1];
      var path := Join(e.0, e.1);
      if Supported(path) && FindJob(before, path, false).None? {
        assert FindJob(before, path, true).None?;
        InsertKeepsActiveUnique(before, NewJob(e.1, path, None, None, now));
      }
    }
  }
}
