/** The web handlers that change or inspect jobs: retrying a failed job,
    queueing a file by hand, and validating a file without processing it.
    A request body is the decoded JSON value; the file system is the set of
    paths that exist. */
module Api {
  import opened Base
  import opened Value
  import opened AnsibleParser
  import opened Config
  import opened Jobs

  // ---------------------------------------------------------------------
  // `retry_job`
  // ---------------------------------------------------------------------

  datatype RetryResponse =
    | RetryNotFound        // 404 from `get_or_404`
    | RetryRejected        // 400 "Can only retry failed jobs"
    | RetryQueued(id: nat) // "Job queued for retry"

  /** The row after a retry: pending again, with the run's traces cleared
      and the counts kept. */
  function Reset(j: Job): (r: Job)
    ensures r.status == Pending && r.startedAt.None? && r.completedAt.None?
    ensures r.errorMessage.None? && r.outputFiles.None?
    ensures r.filename == j.filename && r.filepath == j.filepath && r.createdAt == j.createdAt
    ensures r.vcenterEnvironment == j.vcenterEnvironment && r.clientName == j.clientName
    ensures r.datacenter == j.datacenter && r.vmCount == j.vmCount && r.alarmCount == j.alarmCount
  {
    j.(status := Pending, startedAt := None, completedAt := None, errorMessage := None, outputFiles := None)
  }

  function Retry(t: Table, id: nat): (Table, RetryResponse) {
    if id !in t.jobs then (t, RetryNotFound)
    else if t.jobs[id].status != Failed then (t, RetryRejected)
    else (Table(t.jobs[id := Reset(t.jobs[id])], t.nextId), RetryQueued(id))
  }

  /** Only a failed job is retried; anything else leaves the table as it
      was. A retried row is reset and no other row changes. */
  lemma RetryOnlyFailed(t: Table, id: nat)
    ensures Retry(t, id).1 == RetryNotFound <==> id !in t.jobs
    ensures Retry(t, id).1 == RetryRejected <==> id in t.jobs && t.jobs[id].status != Failed
    ensures Retry(t, id).1.RetryQueued? <==> id in t.jobs && t.jobs[id].status == Failed
    ensures !Retry(t, id).1.RetryQueued? ==> Retry(t, id).0 == t
    ensures Retry(t, id).1.RetryQueued? ==>
              var r := Retry(t, id).0;
              Retry(t, id).1.id == id && r.nextId == t.nextId && r.jobs.Keys == t.jobs.Keys &&
              r.jobs[id] == Reset(t.jobs[id]) &&
              forall other | other in t.jobs && other != id :: r.jobs[other] == t.jobs[other]
  {
  }

  /** A retry does not look for another active job for the same file, so
      it can leave two of them: a failed job and a newer pending one for the
      same path. */
  lemma RetryCanDuplicateActiveJobs()
    ensures var failed := Job("a.json", "./ansible_outputs/a.json", Failed, None, None, None, 0, Some(0), Some(1), Some("boom"), 0, 0, None);
      var pending := NewJob("a.json", "./ansible_outputs/a.json", None, None, 2);
      var t := Table(map[1 := failed, 2 := pending], 3);
      ActiveUnique(t) && !ActiveUnique(Retry(t, 1).0)
  {
    var failed := Job("a.json", "./ansible_outputs/a.json", Failed, None, None, None, 0, Some(0), Some(1), Some("boom"), 0, 0, None);
    var pending := NewJob("a.json", "./ansible_outputs/a.json", None, None, 2);
    var t := Table(map[1 := failed, 2 := pending], 3);
    var r := Retry(t, 1).0;
    assert r.jobs[1].filepath == r.jobs[2].filepath;
    assert Active(r.jobs[1]) && Active(r.jobs[2]);
  }

  /** A retry keeps the active jobs unique when the file has no other
      active job. */
  lemma RetryKeepsActiveUnique(t: Table, id: nat)
    requires ActiveUnique(t) && id in t.jobs && t.jobs[id].status == Failed
    requires forall other | other in t.jobs && other != id && Active(t.jobs[other]) ::
               t.jobs[other].filepath != t.jobs[id].filepath
    ensures ActiveUnique(Retry(t, id).0)
  {
  }

  /** `retry_job` on the job table. */
  method RetryJob(store: JobStore, id: nat) returns (resp: RetryResponse)
    modifies store
    ensures (store.Snapshot(), resp) == Retry(old(store.Snapshot()), id)
  {
    if id !in store.jobs {
      return RetryNotFound;
    }
    var job := store.jobs[id];
    if job.status != Failed {
      return RetryRejected;
    }
    job := job.(status := Pending);
    job := job.(startedAt := None);
    job := job.(completedAt := None);
    job := job.(errorMessage := None);
    job := job.(outputFiles := None);
    store.Put(id, job);
    resp := RetryQueued(id);
  }

  // ---------------------------------------------------------------------
  // The request's `filepath`
  // ---------------------------------------------------------------------

  /** `request.get_json().get('filepath')`, tested for truth: an error when
      the body is not an object (`.get` raises), `None` when the path is
      missing or falsy, and otherwise the value itself, of whatever type. */
  function RequestPath(body: V): (r: Result<Option<V>>)
    ensures r.Err? <==> !body.Obj?
    ensures r.Ok? && r.value.Some? ==> Truthy(r.value.value) && r.value.value == Get(body.fields, "filepath")
    ensures r.Ok? && r.value.None? ==> !Truthy(Get(body.fields, "filepath"))
  {
    if !body.Obj? then Err(AttributeError("'" + TypeName(body) + "' object has no attribute 'get'"))
    else
      var p := Get(body.fields, "filepath");
      if Truthy(p) then Ok(Some(p)) else Ok(None)
  }

  /** The C `int` range a file descriptor must lie in. */
  const MinFd := -0x8000_0000
  const MaxFd := 0x7fff_ffff

  /** `os.path.exists(p)`: a string names a file, and one holding a NUL
      character does not exist (`stat` raises `ValueError`, which `exists`
      absorbs); an integer, or a boolean as 0 or 1, is a file descriptor,
      which exists when it is open in the server process (`openFds`); an
      integer outside the C `int` range raises `OverflowError`, and a value
      of any other type raises `TypeError`. */
  function Exists(p: V, fs: set<string>, openFds: set<int>): (r: Result<bool>) {
    match p
    case Str(s) => Ok('\0' !in s && s in fs)
    case Bool(b) => Ok((if b then 1 else 0) in openFds)
    case Int(i) =>
      if i < MinFd || i > MaxFd then Err(OverflowError("Python int too large to convert to C int"))
      else Ok(i in openFds)
    case _ => Err(TypeError("stat: path should be string, bytes, os.PathLike or integer, not " + TypeName(p)))
  }

  /** A path string exists exactly when the file does; a descriptor exists
      exactly when it is open; only an out-of-range integer or a value that
      is neither a string nor an integer makes `exists` raise. */
  lemma ExistsCases(p: V, fs: set<string>, openFds: set<int>)
    ensures Exists(p, fs, openFds).Err? <==>
              !(p.Str? || p.Bool? || p.Int?) || (p.Int? && !(MinFd <= p.i <= MaxFd))
    ensures p.Str? && '\0' !in p.s ==> Exists(p, fs, openFds) == Ok(p.s in fs)
    ensures p.Str? && '\0' in p.s ==> Exists(p, fs, openFds) == Ok(false)
    ensures p.Int? && MinFd <= p.i <= MaxFd ==> Exists(p, fs, openFds) == Ok(p.i in openFds)
    ensures p == Bool(true) ==> Exists(p, fs, openFds) == Ok(1 in openFds)
  {
  }

  // ---------------------------------------------------------------------
  // `process_file`
  // ---------------------------------------------------------------------

  datatype EnqueueResponse =
    | PathRequired          // 400 "filepath is required"
    | FileMissing           // 404 "File not found"
    | AlreadyQueued(id: nat) // 200 with the existing job's id
    | Enqueued(id: nat)      // 201 with the new job's id
    | EnqueueError          // 500 "Internal server error"

  /** `process_file`; `openFds` are the descriptors open in the server.
      An open descriptor passes the existence test and then makes
      `os.path.basename` raise. */
  function Enqueue(t: Table, body: V, fs: set<string>, openFds: set<int>, now: int): (Table, EnqueueResponse)
    requires WellFormed(t)
  {
    match RequestPath(body)
    case Err(_) => (t, EnqueueError)
    case Ok(None) => (t, PathRequired)
    case Ok(Some(p)) =>
      match Exists(p, fs, openFds)
      case Err(_) => (t, EnqueueError)
      case Ok(false) => (t, FileMissing)
      case Ok(true) =>
        if !p.Str? then (t, EnqueueError)
        else match FindJob(t, p.s, true)
          case Some(id) => (t, AlreadyQueued(id))
          case None => (Insert(t, NewJob(Basename(p.s), p.s, None, None, now)), Enqueued(t.nextId))
  }

  /** The checks run in order: a usable body, a truthy path, an existing
      file, a path that is a string, then the duplicate guard; only a
      request passing all of them adds a row, and that row is an untagged
      pending job named after the file. A closed descriptor is a missing
      file, an open one a server error. */
  lemma EnqueueChecks(t: Table, body: V, fs: set<string>, openFds: set<int>, now: int)
    requires WellFormed(t)
    ensures var (r, resp) := Enqueue(t, body, fs, openFds, now);
      var q := RequestPath(body);
      (resp == PathRequired <==> q == Ok(None)) &&
      (resp == EnqueueError <==>
         q.Err? || (q.value.Some? && (Exists(q.value.value, fs, openFds).Err? ||
                                      (Exists(q.value.value, fs, openFds) == Ok(true) && !q.value.value.Str?)))) &&
      (resp == FileMissing <==> q.Ok? && q.value.Some? && Exists(q.value.value, fs, openFds) == Ok(false)) &&
      (q.Ok? && q.value.Some? && q.value.value.Int? && MinFd <= q.value.value.i <= MaxFd ==>
         resp == (if q.value.value.i in openFds then EnqueueError else FileMissing)) &&
      (!resp.Enqueued? ==> r == t) &&
      (resp.Enqueued? ==>
         q.Ok? && q.value.Some? && q.value.value.Str? &&
         var path := q.value.value.s;
         path in fs && '\0' !in path && FindJob(t, path, true).None? &&
         resp.id == t.nextId && r.jobs.Keys == t.jobs.Keys + {t.nextId} &&
         r.jobs[t.nextId] == NewJob(Basename(path), path, None, None, now) &&
         forall id | id in t.jobs :: r.jobs[id] == t.jobs[id])
  {
  }

  /** An existing pending or processing job for the file is reported, not
      duplicated, and the reported job is one of them. */
  lemma EnqueueReportsActiveJob(t: Table, body: V, fs: set<string>, openFds: set<int>, now: int, path: string)
    requires WellFormed(t)
    requires RequestPath(body) == Ok(Some(Str(path))) && path in fs && '\0' !in path
    requires exists id | id in t.jobs :: Active(t.jobs[id]) && t.jobs[id].filepath == path
    ensures var (r, resp) := Enqueue(t, body, fs, openFds, now);
      r == t && resp.AlreadyQueued? && resp.id in t.jobs && Active(t.jobs[resp.id]) &&
      t.jobs[resp.id].filepath == path
  {
    var id :| id in t.jobs && Active(t.jobs[id]) && t.jobs[id].filepath == path;
    assert Matches(t.jobs[id], path, true);
  }

  lemma EnqueueKeepsActiveUnique(t: Table, body: V, fs: set<string>, openFds: set<int>, now: int)
    requires WellFormed(t) && ActiveUnique(t)
    ensures ActiveUnique(Enqueue(t, body, fs, openFds, now).0)
  {
    var q := RequestPath(body);
    if q.Ok? && q.value.Some? && q.value.value.Str? && Exists(q.value.value, fs, openFds) == Ok(true) {
      var path := q.value.value.s;
      if FindJob(t, path, true).None? {
        InsertKeepsActiveUnique(t, NewJob(Basename(path), path, None, None, now));
      }
    }
  }

  /** Posting the same file twice queues it once; the second answer names
      the job the first one created. */
  lemma EnqueueTwice(t: Table, body: V, fs: set<string>, openFds: set<int>, now: int, later: int)
    requires WellFormed(t)
    requires Enqueue(t, body, fs, openFds, now).1.Enqueued?
    ensures var (r, resp) := Enqueue(t, body, fs, openFds, now);
      WellFormed(r) && Enqueue(r, body, fs, openFds, later) == (r, AlreadyQueued(resp.id))
  {
    var (r, resp) := Enqueue(t, body, fs, openFds, now);
    var path := RequestPath(body).value.value.s;
    assert Matches(r.jobs[t.nextId], path, true);
    assert forall id | id in r.jobs && id < t.nextId :: id in t.jobs && r.jobs[id] == t.jobs[id];
  }

  /** `process_file` on the job table. */
  method ProcessFile(store: JobStore, body: V, fs: set<string>, openFds: set<int>, now: int)
    returns (resp: EnqueueResponse)
    requires WellFormed(store.Snapshot())
    modifies store
    ensures (store.Snapshot(), resp) == Enqueue(old(store.Snapshot()), body, fs, openFds, now)
  {
    var filepath := RequestPath(body);
    if filepath.Err? {
      return EnqueueError;
    }
    if filepath.value.None? {
      return PathRequired;
    }
    var p := filepath.value.value;
    var found := Exists(p, fs, openFds);
    if found.Err? {
      return EnqueueError;
    }
    if !found.value {
      return FileMissing;
    }
    if !p.Str? {
      return EnqueueError;
    }
    var path := p.s;
    var existing := FindJob(store.Snapshot(), path, true);
    if existing.Some? {
      return AlreadyQueued(existing.value);
    }
    var filename := Basename(path);
    var id := store.Add(NewJob(filename, path, None, None, now));
    resp := Enqueued(id);
  }

  // ---------------------------------------------------------------------
  // `validate_file`
  // ---------------------------------------------------------------------

  datatype Validation =
    | ValidatePathRequired           // 400
    | ValidateFileMissing            // 404
    | Invalid(error: string)         // `valid: False` with the message
    | TooLarge(sizeMb: real)         // `valid: False`, "File too large: ..."
    | Valid(sizeMb: real, extension: string, vmCount: nat, alarmCount: nat)
    | ValidateError                  // 500

  /** The size in MB that `validate_file` computes. */
  function SizeMb(bytes: nat): real {
    bytes as real / (1024 * 1024) as real
  }

  /** `validate_file`: `sizes` is `os.path.getsize` (`None` when it
      raises) and `parse` is `parse_file`. An open descriptor passes the
      existence test and then makes `os.path.splitext` raise. */
  function Validate(body: V, fs: set<string>, openFds: set<int>, sizes: string -> Option<nat>,
                    parse: string -> Result<ParsedData>): Validation {
    match RequestPath(body)
    case Err(_) => ValidateError
    case Ok(None) => ValidatePathRequired
    case Ok(Some(p)) =>
      match Exists(p, fs, openFds)
      case Err(_) => ValidateError
      case Ok(false) => ValidateFileMissing
      case Ok(true) => if p.Str? then CheckFile(p.s, sizes, parse) else ValidateError
  }

  /** The checks of `validate_file` on a path that exists: they answer
      about the file, never about the request. */
  function CheckFile(path: string, sizes: string -> Option<nat>, parse: string -> Result<ParsedData>): (v: Validation)
    ensures !v.ValidatePathRequired? && !v.ValidateFileMissing?
  {
    var ext := Lower(Extension(path));
    if ext !in SupportedExtensions then Invalid("Unsupported file extension: " + ext)
    else match sizes(path)
      case None => ValidateError
      case Some(bytes) =>
        if SizeMb(bytes) > MaxFileSizeMb as real then TooLarge(SizeMb(bytes))
        else match parse(path)
          case Err(e) => Invalid("Parse error: " + e.Message())
          case Ok(d) => Valid(SizeMb(bytes), ext, |d.vms|, |d.alarms|)
  }

  /** The request checks of `validate_file` are those of `process_file`:
      the same bodies get 400, the same 404 and the same early 500. */
  lemma ValidateChecksAsEnqueue(t: Table, body: V, fs: set<string>, openFds: set<int>, now: int,
                                sizes: string -> Option<nat>, parse: string -> Result<ParsedData>)
    requires WellFormed(t)
    ensures var v := Validate(body, fs, openFds, sizes, parse);
      var resp := Enqueue(t, body, fs, openFds, now).1;
      (v == ValidatePathRequired <==> resp == PathRequired) &&
      (v == ValidateFileMissing <==> resp == FileMissing) &&
      (resp == EnqueueError ==> v == ValidateError)
  {
    var q := RequestPath(body);
    if q.Ok? && q.value.Some? {
      var p := q.value.value;
      if Exists(p, fs, openFds) == Ok(true) && p.Str? {
        var v := CheckFile(p.s, sizes, parse);
        assert Validate(body, fs, openFds, sizes, parse) == v;
        assert Enqueue(t, body, fs, openFds, now).1.AlreadyQueued? || Enqueue(t, body, fs, openFds, now).1.Enqueued?;
      }
    }
  }

  /** The MB limit of the validator and the byte limit of the watcher
      reject the same files. */
  lemma SizeLimitsAgree(bytes: nat)
    ensures SizeMb(bytes) > MaxFileSizeMb as real <==> bytes > MaxFileSizeBytes
  {
    var m := (1024 * 1024) as real;
    assert SizeMb(bytes) * m == bytes as real;
    assert MaxFileSizeBytes as real == MaxFileSizeMb as real * m;
  }

  /** The checks run in order: extension, then size, then parse; a parse
      error is an invalid file, not a server error, and a valid file
      reports the parsed list lengths. */
  lemma ValidateOrder(body: V, fs: set<string>, openFds: set<int>, sizes: string -> Option<nat>,
                      parse: string -> Result<ParsedData>, path: string)
    requires RequestPath(body) == Ok(Some(Str(path))) && path in fs && '\0' !in path
    ensures var v := Validate(body, fs, openFds, sizes, parse);
      (Lower(Extension(path)) !in SupportedExtensions ==>
         v == Invalid("Unsupported file extension: " + Lower(Extension(path)))) &&
      (Lower(Extension(path)) in SupportedExtensions && sizes(path).Some? && sizes(path).value > MaxFileSizeBytes ==>
         v.TooLarge?) &&
      (v.Valid? <==> Lower(Extension(path)) in SupportedExtensions && sizes(path).Some? &&
                     sizes(path).value <= MaxFileSizeBytes && parse(path).Ok?) &&
      (v.Valid? ==> v.vmCount == |parse(path).value.vms| && v.alarmCount == |parse(path).value.alarms| &&
                    v.extension == Lower(Extension(path))) &&
      (Lower(Extension(path)) in SupportedExtensions && sizes(path).Some? &&
       sizes(path).value <= MaxFileSizeBytes && parse(path).Err? ==>
         v == Invalid("Parse error: " + parse(path).error.Message()))
  {
    if sizes(path).Some? {
      SizeLimitsAgree(sizes(path).value);
    }
  }

  /** A numeric path names a file descriptor: with only the standard
      streams open, 12345 is a missing file to both handlers, and 1
      (standard output) gets past the existence test to a server error. */
  lemma DescriptorPaths(t: Table, fs: set<string>, now: int,
                        sizes: string -> Option<nat>, parse: string -> Result<ParsedData>)
    requires WellFormed(t)
    ensures var closed := Obj([("filepath", Int(12345))]);
      Enqueue(t, closed, fs, {0, 1, 2}, now) == (t, FileMissing) &&
      Validate(closed, fs, {0, 1, 2}, sizes, parse) == ValidateFileMissing
    ensures var open := Obj([("filepath", Int(1))]);
      Enqueue(t, open, fs, {0, 1, 2}, now) == (t, EnqueueError) &&
      Validate(open, fs, {0, 1, 2}, sizes, parse) == ValidateError
  {
    assert Get([("filepath", Int(12345))], "filepath") == Int(12345);
    assert Get([("filepath", Int(1))], "filepath") == Int(1);
  }

  /** `validate_file` as early returns. */
  method ValidateFile(body: V, fs: set<string>, openFds: set<int>, sizes: string -> Option<nat>,
                      parse: string -> Result<ParsedData>) returns (v: Validation)
    ensures v == Validate(body, fs, openFds, sizes, parse)
  {
    var filepath := RequestPath(body);
    if filepath.Err? {
      return ValidateError;
    }
    if filepath.value.None? {
      return ValidatePathRequired;
    }
    var p := filepath.value.value;
    var found := Exists(p, fs, openFds);
    if found.Err? {
      return ValidateError;
    }
    if !found.value {
      return ValidateFileMissing;
    }
    if !p.Str? {
      return ValidateError;
    }
    var path := p.s;
    var fileExt := Lower(Extension(path));
    if fileExt !in SupportedExtensions {
      return Invalid("Unsupported file extension: " + fileExt);
    }
    var size := sizes(path);
    if size.None? {
      return ValidateError;
    }
    var fileSizeMb := SizeMb(size.value);
    if fileSizeMb > MaxFileSizeMb as real {
      return TooLarge(fileSizeMb);
    }
    var parsed := parse(path);
    if parsed.Err? {
      return Invalid("Parse error: " + parsed.error.Message());
    }
    v := Valid(fileSizeMb, fileExt, |parsed.value.vms|, |parsed.value.alarms|);
  }
}
