/** The scheduler's passes over the job table: processing one job
    (parse, count, export, relocate), processing a batch of pending jobs,
    and the retention sweep. The file system is the set of paths that
    exist; everything else the outside world decides is in `World`. */
module Scheduler {
  import opened Base
  import opened Value
  import opened Counting
  import opened AnsibleParser
  import opened DataProcessor
  import opened Config
  import opened Jobs

  /** What one pass observes of the outside world. `parse` is what
      `parse_file` returns or raises for the file at a path; `ParserWorld`
      makes it the extractor of `AnsibleParser` applied to the decoder's
      output. */
  datatype World = World(
    now: int,                                 // `datetime.utcnow()`, in seconds
    stamp: string,                            // `datetime.now()` as `%Y%m%d_%H%M%S`
    parse: string -> Result<ParsedData>,      // `parser.parse_file(path)`
    writeFailure: string -> Option<WriteFailure>, // what the file writers raise exporting an input path, if anything
    moveFails: set<string>,                   // paths `shutil.move` fails on
    removeFails: set<string>)                 // paths `os.remove` fails on

  /** The world whose parser is `AnsibleParser.ParseFile`, reading each
      path through `decode` and parsing dates with `dates`. */
  function ParserWorld(now: int, stamp: string, decode: string -> Result<V>, dates: DateParser,
                       writeFailure: string -> Option<WriteFailure>, moveFails: set<string>,
                       removeFails: set<string>): (w: World)
    ensures forall p :: w.parse(p) == ParseFile(dates, p, decode(p))
    ensures w.now == now && w.stamp == stamp && w.writeFailure == writeFailure
    ensures w.moveFails == moveFails && w.removeFails == removeFails
  {
    World(now, stamp, p => ParseFile(dates, p, decode(p)), writeFailure, moveFails, removeFails)
  }

  /** The handler of `process_single_job`: failed, with the message and
      the completion time. */
  function Fail(j: Job, msg: string, now: int): (r: Job)
    ensures r.status == Failed && r.errorMessage == Some(msg) && r.completedAt == Some(now)
    ensures r.outputFiles == j.outputFiles && r.vmCount == j.vmCount && r.alarmCount == j.alarmCount
  {
    j.(status := Failed, errorMessage := Some(msg), completedAt := Some(now))
  }

  /** `move_processed_file`'s destination. */
  function ProcessedPath(stamp: string, path: string): (p: string)
    ensures EndsWith(p, stamp + "_" + Basename(path))
  {
    Join(ProcessedDirectory, stamp + "_" + Basename(path))
  }

  /** The files after the relocation; a failed move changes nothing. */
  function Moved(w: World, path: string, fs: set<string>): set<string> {
    if path in w.moveFails then fs else fs - {path} + {ProcessedPath(w.stamp, path)}
  }

  /** `move_processed_file`: any failure is swallowed. */
  method MoveProcessedFile(w: World, path: string, fs: set<string>) returns (fs': set<string>)
    ensures fs' == Moved(w, path, fs)
    ensures path !in w.moveFails ==> path !in fs' - {ProcessedPath(w.stamp, path)} && ProcessedPath(w.stamp, path) in fs'
    ensures path in w.moveFails ==> fs' == fs
  {
    var filename := Basename(path);
    var processedPath := Join(ProcessedDirectory, w.stamp + "_" + filename);
    if path in w.moveFails {
      fs' := fs;
    } else {
      fs' := fs - {path} + {processedPath};
    }
  }

  /** The job after `process_single_job`, and the files after it. */
  datatype Outcome = Outcome(job: Job, files: set<string>)

  /** The tags the data processor reads back from the job's row. */
  function TagsOf(job: Job): JobTags {
    JobTags(job.vcenterEnvironment, job.clientName)
  }

  /** What `processor.process_data` does for the job: its tags come from
      the job's row, its timestamp from the clock. */
  function Export(w: World, job: Job, parsed: ParsedData): ExportResult {
    ExportOutcome(parsed, Some(TagsOf(job)), w.stamp, OutputDirectory, w.writeFailure(job.filepath))
  }

  function Run(w: World, job: Job, fs: set<string>): Outcome {
    Attempt(w, job.(status := Processing, startedAt := Some(w.now)), fs)
  }

  /** What happens to the job once its row says it is processing. */
  function Attempt(w: World, started: Job, fs: set<string>): Outcome {
    if started.filepath !in fs then
      Outcome(Fail(started, "File not found: " + started.filepath, w.now), fs)
    else
      match w.parse(started.filepath)
      case Err(e) => Outcome(Fail(started, e.Message(), w.now), fs)
      case Ok(parsed) => Finish(w, started.(vmCount := |parsed.vms|, alarmCount := |parsed.alarms|), parsed, fs)
  }

  /** The export and what follows it, for the job with its counts
      committed. */
  function Finish(w: World, counted: Job, parsed: ParsedData, fs: set<string>): Outcome {
    match Export(w, counted, parsed)
    case Raised(e, written) => Outcome(Fail(counted, e.Message(), w.now), fs + set o | o in written)
    case Exported(outputs) =>
      Outcome(counted.(outputFiles := Some(outputs), status := Completed, completedAt := Some(w.now)),
              Moved(w, counted.filepath, fs + set o | o in outputs))
  }

  /** `process_single_job` on the row `id`: the row is updated and
      committed step by step, and ends as `Run` says. */
  method ProcessSingleJob(store: JobStore, w: World, id: nat, fs: set<string>) returns (fs': set<string>)
    requires id in store.jobs
    modifies store
    ensures store.jobs == old(store.jobs)[id := Run(w, old(store.jobs)[id], fs).job]
    ensures store.nextId == old(store.nextId)
    ensures fs' == Run(w, old(store.jobs)[id], fs).files
  {
    var job := store.jobs[id];
    job := job.(status := Processing, startedAt := Some(w.now));
    store.Put(id, job);
    fs' := AttemptJob(store, w, id, job, fs);
  }

  /** The body of the `try` block in `process_single_job`, from the
      existence test on. */
  method AttemptJob(store: JobStore, w: World, id: nat, job: Job, fs: set<string>) returns (fs': set<string>)
    requires id in store.jobs
    modifies store
    ensures store.jobs == old(store.jobs)[id := Attempt(w, job, fs).job]
    ensures store.nextId == old(store.nextId)
    ensures fs' == Attempt(w, job, fs).files
  {
    if job.filepath !in fs {
      store.Put(id, Fail(job, "File not found: " + job.filepath, w.now));
      return fs;
    }
    var parsed := w.parse(job.filepath);
    if parsed.Err? {
      store.Put(id, Fail(job, parsed.error.Message(), w.now));
      return fs;
    }
    var counted := job.(vmCount := |parsed.value.vms|, alarmCount := |parsed.value.alarms|);
    store.Put(id, counted);
    fs' := ExportJob(store, w, id, counted, parsed.value, fs);
  }

  /** The `process_data` call and the rest of the `try` block: on an
      exception the row is failed and the written files stay; otherwise
      the row is completed and the input is moved. */
  method ExportJob(store: JobStore, w: World, id: nat, job: Job, parsed: ParsedData, fs: set<string>)
    returns (fs': set<string>)
    requires id in store.jobs
    modifies store
    ensures store.jobs == old(store.jobs)[id := Finish(w, job, parsed, fs).job]
    ensures store.nextId == old(store.nextId)
    ensures fs' == Finish(w, job, parsed, fs).files
  {
    var outcome := Export(w, job, parsed);
    if outcome.Raised? {
      store.Put(id, Fail(job, outcome.error.Message(), w.now));
      return fs + set o | o in outcome.written;
    }
    var outputs := ProcessData(parsed, Some(TagsOf(job)), w.stamp, OutputDirectory);
    var done := job.(outputFiles := Some(outputs), status := Completed, completedAt := Some(w.now));
    store.Put(id, done);
    fs' := MoveProcessedFile(w, done.filepath, fs + set o | o in outputs);
  }

  // ---------------------------------------------------------------------
  // Properties of one job's processing
  // ---------------------------------------------------------------------

  /** Every processed job ends completed or failed, stamped with its start
      and end, and keeps its identity and tags. */
  lemma RunEndsSettled(w: World, job: Job, fs: set<string>)
    ensures var o := Run(w, job, fs).job;
      (o.status == Completed || o.status == Failed) &&
      o.startedAt == Some(w.now) && o.completedAt == Some(w.now) &&
      o.filename == job.filename && o.filepath == job.filepath && o.createdAt == job.createdAt &&
      o.vcenterEnvironment == job.vcenterEnvironment && o.clientName == job.clientName
  {
  }

  /** A missing file fails the job with "File not found: <path>" and leaves
      its counts, outputs and the files alone. */
  lemma RunMissingFile(w: World, job: Job, fs: set<string>)
    requires job.filepath !in fs
    ensures var o := Run(w, job, fs);
      o.job.status == Failed && o.job.errorMessage == Some("File not found: " + job.filepath) &&
      o.job.outputFiles == job.outputFiles && o.job.vmCount == job.vmCount &&
      o.job.alarmCount == job.alarmCount && o.files == fs
  {
  }

  /** A job completes exactly when its file exists, parses, no writer
      fails and the data raises nothing; then its counts are the parsed
      list lengths, its outputs are the processor's plan (summary last),
      and the input file is relocated unless the move fails. */
  lemma RunCompletes(w: World, job: Job, fs: set<string>)
    ensures var o := Run(w, job, fs);
      var parsed := w.parse(job.filepath);
      (o.job.status == Completed <==>
         job.filepath in fs && parsed.Ok? && w.writeFailure(job.filepath).None? &&
         AlarmCleaningError(parsed.value.alarms).None? && SummaryError(parsed.value).None?) &&
      (o.job.status == Completed ==>
         o.job.vmCount == |parsed.value.vms| && o.job.alarmCount == |parsed.value.alarms| &&
         o.job.outputFiles == Some(OutputPlan(|parsed.value.vms|, |parsed.value.alarms|, Some(TagsOf(job)),
                                              w.stamp, OutputDirectory)) &&
         o.job.outputFiles.value[|o.job.outputFiles.value| - 1] == SummaryPath(OutputDirectory, w.stamp) &&
         (job.filepath !in w.moveFails ==> ProcessedPath(w.stamp, job.filepath) in o.files))
  {
    var parsed := w.parse(job.filepath);
    if job.filepath in fs && parsed.Ok? {
      OutputPlanShape(|parsed.value.vms|, |parsed.value.alarms|, Some(TagsOf(job)), w.stamp, OutputDirectory);
    }
  }

  /** A failed export fails the job with the exception's message, keeps
      the counts committed before it and the previous outputs, leaves the
      input where it is, and leaves on disk the planned files written
      before the exception: a leading part of the plan. */
  lemma RunExportFailure(w: World, job: Job, fs: set<string>)
    requires job.filepath in fs
    requires w.parse(job.filepath).Ok?
    requires Export(w, job, w.parse(job.filepath).value).Raised?
    ensures var o := Run(w, job, fs);
      var parsed := w.parse(job.filepath).value;
      var x := Export(w, job, parsed);
      var plan := OutputPlan(|parsed.vms|, |parsed.alarms|, Some(TagsOf(job)), w.stamp, OutputDirectory);
      o.job.status == Failed && o.job.errorMessage == Some(x.error.Message()) &&
      o.job.vmCount == |parsed.vms| && o.job.alarmCount == |parsed.alarms| && o.job.outputFiles == job.outputFiles &&
      o.files == fs + (set f | f in x.written) && job.filepath in o.files &&
      exists k | 0 <= k <= |plan| :: x.written == plan[..k]
  {
  }

  /** An alarm with a zone-aware time fails the job with the subtraction's
      message once the VM files are written, unless a writer failed
      earlier: those files stay, and no alarm file or summary does. */
  lemma RunAwareAlarms(w: World, job: Job, fs: set<string>)
    requires job.filepath in fs
    requires w.parse(job.filepath).Ok?
    requires var parsed := w.parse(job.filepath).value;
      exists i | 0 <= i < |parsed.alarms| :: AwareTime(parsed.alarms[i])
    requires var parsed := w.parse(job.filepath).value;
      w.writeFailure(job.filepath).None? ||
      w.writeFailure(job.filepath).value.at >= |SectionOf("vms", |parsed.vms|, Some(TagsOf(job)), w.stamp, OutputDirectory)|
    ensures var o := Run(w, job, fs);
      var parsed := w.parse(job.filepath).value;
      o.job.status == Failed && o.job.errorMessage == Some(SubtractionError().Message()) &&
      o.files == fs + (set f | f in SectionOf("vms", |parsed.vms|, Some(TagsOf(job)), w.stamp, OutputDirectory))
  {
    var parsed := w.parse(job.filepath).value;
    AwareAlarmsKeepVmFiles(parsed, Some(TagsOf(job)), w.stamp, OutputDirectory, w.writeFailure(job.filepath));
  }

  /** A parse failure fails the job with the exception's message, before
      any count is written. */
  lemma RunParseFailure(w: World, job: Job, fs: set<string>)
    requires job.filepath in fs
    requires w.parse(job.filepath).Err?
    ensures var o := Run(w, job, fs).job;
      o.status == Failed &&
      o.errorMessage == Some(w.parse(job.filepath).error.Message()) &&
      o.vmCount == job.vmCount && o.alarmCount == job.alarmCount
  {
  }

  /** Whether the relocation works has no effect on the job's row. */
  lemma MoveFailureIsSwallowed(w: World, job: Job, fs: set<string>, fails: set<string>)
    ensures Run(w, job, fs).job == Run(w.(moveFails := fails), job, fs).job
  {
  }

  /** Processing a job never creates a second active job for a file. */
  lemma RunKeepsActiveUnique(t: Table, id: nat, w: World, fs: set<string>)
    requires ActiveUnique(t) && id in t.jobs
    ensures ActiveUnique(Table(t.jobs[id := Run(w, t.jobs[id], fs).job], t.nextId))
  {
    RunEndsSettled(w, t.jobs[id], fs);
    UpdateKeepsActiveUnique(t, id, Run(w, t.jobs[id], fs).job);
  }

  // ---------------------------------------------------------------------
  // A batch: `process_pending_jobs`
  // ---------------------------------------------------------------------

  predicate PendingJob(j: Job) {
    j.status == Pending
  }

  /** `filter_by(status='pending').limit(10)`, taken in id order. */
  function Batch(t: Table): (ids: seq<nat>)
    ensures |ids| <= 10
    ensures forall k | 0 <= k < |ids| :: ids[k] in t.jobs && t.jobs[ids[k]].status == Pending
    ensures forall k, l | 0 <= k < l < |ids| :: ids[k] < ids[l]
  {
    Head(IdsWhere(t, PendingJob, 0), 10)
  }

  /** With at most ten pending jobs, the batch takes all of them. */
  lemma SmallBacklogIsTakenWhole(t: Table)
    requires WellFormed(t)
    requires |IdsWhere(t, PendingJob, 0)| <= 10
    ensures forall id | id in t.jobs && t.jobs[id].status == Pending :: id in Batch(t)
  {
  }

  datatype State = State(jobs: map<nat, Job>, files: set<string>)

  /** The jobs `ids` processed one after the other. */
  function RunAll(w: World, s: State, ids: seq<nat>): State
    decreases |ids|
  {
    if ids == [] then s
    else
      var before := RunAll(w, s, ids[..|ids| - 1]);
      var id := ids[|ids| - 1];
      if id in before.jobs then
        var o := Run(w, before.jobs[id], before.files);
        State(before.jobs[id := o.job], o.files)
      else before
  }

  /** Processing a batch touches only the batch's rows. */
  lemma {:induction false} RunAllFrame(w: World, s: State, ids: seq<nat>)
    ensures RunAll(w, s, ids).jobs.Keys == s.jobs.Keys
    ensures forall id | id in s.jobs && id !in ids :: RunAll(w, s, ids).jobs[id] == s.jobs[id]
    decreases |ids|
  {
    if ids != [] {
      var front := ids[..|ids| - 1];
      RunAllFrame(w, s, front);
      assert forall x | x in ids :: x in front || x == ids[|ids| - 1];
    }
  }

  /** Each row of a batch ends settled whatever happened to the others. */
  lemma {:induction false} RunAllSettles(w: World, s: State, ids: seq<nat>)
    ensures forall k | 0 <= k < |ids| && ids[k] in s.jobs ::
              ids[k] in RunAll(w, s, ids).jobs &&
              (RunAll(w, s, ids).jobs[ids[k]].status == Completed || RunAll(w, s, ids).jobs[ids[k]].status == Failed)
    decreases |ids|
  {
    RunAllFrame(w, s, ids);
    if ids != [] {
      var front := ids[..|ids| - 1];
      RunAllFrame(w, s, front);
      RunAllSettles(w, s, front);
      var before := RunAll(w, s, front);
      var id := ids[|ids| - 1];
      if id in before.jobs {
        RunEndsSettled(w, before.jobs[id], before.files);
      }
      assert forall k | 0 <= k < |ids| - 1 :: ids[k] == front[k];
    }
  }

  /** One more claimed id: the pass so far, then that job's run. */
  lemma RunAllStep(w: World, s: State, ids: seq<nat>, i: nat)
    requires i < |ids|
    ensures var before := RunAll(w, s, ids[..i]);
      RunAll(w, s, ids[..i + 1]) ==
        if ids[i] in before.jobs then
          State(before.jobs[ids[i] := Run(w, before.jobs[ids[i]], before.files).job],
                Run(w, before.jobs[ids[i]], before.files).files)
        else before
  {
    assert ids[..i + 1][..i] == ids[..i];
  }

  method ProcessPendingJobs(store: JobStore, w: World, fs: set<string>) returns (fs': set<string>)
    modifies store
    ensures State(store.jobs, fs') == RunAll(w, State(old(store.jobs), fs), Batch(old(store.Snapshot())))
    ensures store.nextId == old(store.nextId)
  {
    var batch := Batch(store.Snapshot());
    fs' := fs;
    if batch == [] {
      return;
    }
    var i := 0;
    while i < |batch|
      invariant 0 <= i <= |batch|
      invariant State(store.jobs, fs') == RunAll(w, State(old(store.jobs), fs), batch[..i])
      invariant store.jobs.Keys == old(store.jobs).Keys
      invariant store.nextId == old(store.nextId)
    {
      RunAllStep(w, State(old(store.jobs), fs), batch, i);
      RunAllFrame(w, State(old(store.jobs), fs), batch[..i]);
      fs' := ProcessSingleJob(store, w, batch[i], fs');
      i := i + 1;
    }
    assert batch[..i] == batch;
  }

  /** After a pass every claimed job is completed or failed, and no other
      row changed. */
  lemma PassSettlesBatch(w: World, t: Table, fs: set<string>)
    ensures var r := RunAll(w, State(t.jobs, fs), Batch(t));
      r.jobs.Keys == t.jobs.Keys &&
      (forall id | id in Batch(t) :: r.jobs[id].status == Completed || r.jobs[id].status == Failed) &&
      (forall id | id in t.jobs && id !in Batch(t) :: r.jobs[id] == t.jobs[id])
  {
    RunAllFrame(w, State(t.jobs, fs), Batch(t));
    RunAllSettles(w, State(t.jobs, fs), Batch(t));
  }

  // ---------------------------------------------------------------------
  // Retention: `cleanup_old_records`
  // ---------------------------------------------------------------------

  function Cutoff(now: int): int {
    now - RetentionDays * SecondsPerDay
  }

  /** Settled, with a completion time strictly before the cutoff; a row
      without a completion time never qualifies. */
  predicate Expired(cutoff: int, j: Job) {
    (j.status == Completed || j.status == Failed) && j.completedAt.Some? && j.completedAt.value < cutoff
  }

  function ExpiredFn(cutoff: int): Job -> bool {
    j => Expired(cutoff, j)
  }

  /** The rows the sweep keeps. */
  function Sweep(t: Table, cutoff: int): (r: map<nat, Job>)
    ensures forall id | id in r :: id in t.jobs && r[id] == t.jobs[id]
    ensures forall id | id in t.jobs :: id in r <==> !Expired(cutoff, t.jobs[id])
  {
    map id | id in t.jobs && !Expired(cutoff, t.jobs[id]) :: t.jobs[id]
  }

  /** The output files a row lists. */
  function Listed(j: Job): (r: set<string>)
    ensures forall f :: f in r <==> j.outputFiles.Some? && f in j.outputFiles.value
  {
    if j.outputFiles.Some? then set f | f in j.outputFiles.value else {}
  }

  /** The output files listed by the rows `ids`. */
  function OutputsOf(jobs: map<nat, Job>, ids: seq<nat>): set<string>
    decreases |ids|
  {
    if ids == [] then {}
    else
      var id := ids[|ids| - 1];
      OutputsOf(jobs, ids[..|ids| - 1]) + (if id in jobs then Listed(jobs[id]) else {})
  }

  /** A file is among the outputs of `ids` exactly when one of those rows
      lists it. */
  lemma {:induction false} OutputsOfMembers(jobs: map<nat, Job>, ids: seq<nat>)
    ensures forall f :: f in OutputsOf(jobs, ids) <==>
              exists k | 0 <= k < |ids| :: ids[k] in jobs && f in Listed(jobs[ids[k]])
    decreases |ids|
  {
    if ids != [] {
      var front := ids[..|ids| - 1];
      OutputsOfMembers(jobs, front);
      assert forall k | 0 <= k < |front| :: front[k] == ids[k];
    }
  }

  lemma OutputsStep(jobs: map<nat, Job>, ids: seq<nat>, i: nat)
    requires i < |ids|
    ensures OutputsOf(jobs, ids[..i + 1]) ==
            OutputsOf(jobs, ids[..i]) + (if ids[i] in jobs then Listed(jobs[ids[i]]) else {})
  {
    assert ids[..i + 1][..i] == ids[..i];
  }

  lemma WithoutStep(jobs: map<nat, Job>, ids: seq<nat>, i: nat)
    requires i < |ids|
    ensures Without(jobs, ids[..i + 1]) == Without(jobs, ids[..i]) - {ids[i]}
  {
    assert ids[..i + 1][..i] == ids[..i];
  }

  /** Removes the listed files that exist; a file that cannot be removed
      stays, and the others still go. */
  method RemoveFiles(w: World, files: seq<string>, fs: set<string>) returns (fs': set<string>)
    ensures fs' == fs - ((set f | f in files) - w.removeFails)
  {
    fs' := fs;
    var j := 0;
    while j < |files|
      invariant 0 <= j <= |files|
      invariant forall x :: x in fs' <==> x in fs && !(x in files[..j] && x !in w.removeFails)
    {
      assert forall x :: x in files[..j + 1] <==> x in files[..j] || x == files[j];
      if files[j] in fs' && files[j] !in w.removeFails {
        fs' := fs' - {files[j]};
      }
      j := j + 1;
    }
    assert files[..j] == files;
  }

  /** The rows `ids` deleted from `jobs`, one after the other. */
  function Without(jobs: map<nat, Job>, ids: seq<nat>): (r: map<nat, Job>)
    ensures forall id :: id in r <==> id in jobs && id !in ids
    ensures forall id | id in r :: r[id] == jobs[id]
    decreases |ids|
  {
    if ids == [] then jobs
    else
      assert forall x :: x in ids <==> x in ids[..|ids| - 1] || x == ids[|ids| - 1];
      Without(jobs, ids[..|ids| - 1]) - {ids[|ids| - 1]}
  }

  /** Deleting the expired ids, all of them, leaves the sweep. */
  lemma WithoutExpiredIsSweep(t: Table, cutoff: int)
    requires WellFormed(t)
    ensures Without(t.jobs, IdsWhere(t, ExpiredFn(cutoff), 0)) == Sweep(t, cutoff)
  {
    var ids := IdsWhere(t, ExpiredFn(cutoff), 0);
    forall id | id in t.jobs
      ensures id in ids <==> Expired(cutoff, t.jobs[id])
    {
      if Expired(cutoff, t.jobs[id]) {
        assert ExpiredFn(cutoff)(t.jobs[id]);
      }
    }
    var r := Without(t.jobs, ids);
    var sw := Sweep(t, cutoff);
    assert r.Keys == sw.Keys;
    assert forall id | id in r :: r[id] == sw[id];
  }

  /** Two removals in a row, each sparing the same failures. */
  lemma RemoveTwice(fs: set<string>, a: set<string>, b: set<string>, fails: set<string>)
    ensures fs - (a - fails) - (b - fails) == fs - ((a + b) - fails)
  {
  }

  /** Deletes the row `id` after removing its output files. */
  method DeleteJob(store: JobStore, w: World, id: nat, fs: set<string>) returns (fs': set<string>)
    requires id in store.jobs
    modifies store
    ensures store.jobs == old(store.jobs) - {id} && store.nextId == old(store.nextId)
    ensures fs' == fs - (Listed(old(store.jobs)[id]) - w.removeFails)
  {
    var job := store.jobs[id];
    fs' := fs;
    if job.outputFiles.Some? {
      fs' := RemoveFiles(w, job.outputFiles.value, fs);
    }
    store.Delete(id);
  }

  /** `cleanup_old_records`: every expired row is deleted after its output
      files are removed; failed removals are only logged. The log table's
      own sweep is not modelled. */
  method CleanupOldRecords(store: JobStore, w: World, fs: set<string>) returns (fs': set<string>)
    requires WellFormed(store.Snapshot())
    modifies store
    ensures store.jobs == Sweep(old(store.Snapshot()), Cutoff(w.now))
    ensures store.nextId == old(store.nextId)
    ensures fs' == fs - (OutputsOf(old(store.jobs), IdsWhere(old(store.Snapshot()), ExpiredFn(Cutoff(w.now)), 0)) - w.removeFails)
  {
    var cutoff := Cutoff(w.now);
    var expired := IdsWhere(store.Snapshot(), ExpiredFn(cutoff), 0);
    WithoutExpiredIsSweep(store.Snapshot(), cutoff);
    ghost var jobs0 := store.jobs;
    fs' := fs;
    var i := 0;
    while i < |expired|
      invariant 0 <= i <= |expired|
      invariant store.jobs == Without(jobs0, expired[..i])
      invariant store.nextId == old(store.nextId)
      invariant fs' == fs - (OutputsOf(jobs0, expired[..i]) - w.removeFails)
    {
      var id := expired[i];
      assert id !in expired[..i] by {
        forall k | 0 <= k < i ensures expired[k] != id {
          assert expired[k] < expired[i];
        }
      }
      OutputsStep(jobs0, expired, i);
      WithoutStep(jobs0, expired, i);
      RemoveTwice(fs, OutputsOf(jobs0, expired[..i]), Listed(jobs0[id]), w.removeFails);
      fs' := DeleteJob(store, w, id, fs');
      i := i + 1;
    }
    assert expired[..i] == expired;
  }

  /** The sweep keeps every pending or processing job and every job not
      yet past retention, and deletes the rest unchanged otherwise. */
  lemma SweepKeepsLiveJobs(t: Table, now: int)
    ensures forall id | id in t.jobs && Active(t.jobs[id]) :: id in Sweep(t, Cutoff(now))
    ensures forall id | id in t.jobs && t.jobs[id].completedAt.None? :: id in Sweep(t, Cutoff(now))
    ensures forall id | id in t.jobs && t.jobs[id].completedAt.Some? &&
                        t.jobs[id].completedAt.value >= now - RetentionDays * SecondsPerDay :: id in Sweep(t, Cutoff(now))
    ensures forall id | id in t.jobs && t.jobs[id].status == Completed && t.jobs[id].completedAt.Some? &&
                        t.jobs[id].completedAt.value < now - RetentionDays * SecondsPerDay :: id !in Sweep(t, Cutoff(now))
  {
  }

  /** Deleting rows keeps the files' active jobs unique. */
  lemma SweepKeepsActiveUnique(t: Table, cutoff: int)
    requires ActiveUnique(t)
    ensures ActiveUnique(Table(Sweep(t, cutoff), t.nextId))
  {
  }
}
