/** The processing-job table: one row per queued input file, with its
    status, timestamps, counts, output files and error message, as the
    `ProcessingJob` model declares them. Times are seconds on the UTC
    clock. */
module Jobs {
  import opened Base

  datatype Status = Pending | Processing | Completed | Failed

  datatype Job = Job(
    filename: string,
    filepath: string,
    status: Status,
    vcenterEnvironment: Option<string>,
    clientName: Option<string>,
    datacenter: Option<string>,
    createdAt: int,
    startedAt: Option<int>,
    completedAt: Option<int>,
    errorMessage: Option<string>,
    vmCount: nat,
    alarmCount: nat,
    outputFiles: Option<seq<string>>)

  /** A freshly queued job: pending, with the column defaults. */
  function NewJob(filename: string, filepath: string, env: Option<string>, client: Option<string>, now: int): (j: Job)
    ensures j.status == Pending && j.filepath == filepath && j.filename == filename
    ensures j.vcenterEnvironment == env && j.clientName == client && j.datacenter.None?
    ensures j.startedAt.None? && j.completedAt.None? && j.errorMessage.None? && j.outputFiles.None?
    ensures j.vmCount == 0 && j.alarmCount == 0
  {
    Job(filename, filepath, Pending, env, client, None, now, None, None, None, 0, 0, None)
  }

  /** The rows by id, and the id the database hands out next. */
  datatype Table = Table(jobs: map<nat, Job>, nextId: nat)

  /** Every id in use is below the next id. */
  predicate WellFormed(t: Table) {
    forall id | id in t.jobs :: id < t.nextId
  }

  /** `db.session.add(job)` followed by a commit. */
  function Insert(t: Table, job: Job): (r: Table)
    ensures r.jobs.Keys == t.jobs.Keys + {t.nextId}
    ensures r.jobs[t.nextId] == job && r.nextId == t.nextId + 1
    ensures WellFormed(t) ==> WellFormed(r) && t.nextId !in t.jobs
    ensures WellFormed(t) ==> forall id | id in t.jobs :: r.jobs[id] == t.jobs[id]
  {
    Table(t.jobs[t.nextId := job], t.nextId + 1)
  }

  predicate Active(j: Job) {
    j.status == Pending || j.status == Processing
  }

  predicate Matches(j: Job, path: string, activeOnly: bool) {
    j.filepath == path && (!activeOnly || Active(j))
  }

  /** The lowest id at or after `from` whose job is for `path` (and
      active, when `activeOnly`). */
  function LowestMatch(t: Table, path: string, activeOnly: bool, from: nat): (r: Option<nat>)
    ensures r.Some? ==> r.value in t.jobs && from <= r.value && Matches(t.jobs[r.value], path, activeOnly)
    ensures r.Some? ==> forall id | from <= id < r.value && id in t.jobs :: !Matches(t.jobs[id], path, activeOnly)
    ensures r.None? ==> forall id | from <= id < t.nextId && id in t.jobs :: !Matches(t.jobs[id], path, activeOnly)
    decreases t.nextId - from
  {
    if from >= t.nextId then None
    else if from in t.jobs && Matches(t.jobs[from], path, activeOnly) then Some(from)
    else LowestMatch(t, path, activeOnly, from + 1)
  }

  /** `ProcessingJob.query.filter_by(filepath=path)...first()`, optionally
      restricted to pending and processing jobs; the first row is taken to
      be the one with the lowest id. */
  function FindJob(t: Table, path: string, activeOnly: bool): (r: Option<nat>)
    requires WellFormed(t)
    ensures r.Some? ==> r.value in t.jobs && Matches(t.jobs[r.value], path, activeOnly)
    ensures r.None? <==> forall id | id in t.jobs :: !Matches(t.jobs[id], path, activeOnly)
  {
    LowestMatch(t, path, activeOnly, 0)
  }

  /** At most one pending or processing job per file. */
  predicate ActiveUnique(t: Table) {
    forall a, b | a in t.jobs && b in t.jobs && Active(t.jobs[a]) && Active(t.jobs[b]) &&
                  t.jobs[a].filepath == t.jobs[b].filepath :: a == b
  }

  /** Inserting a job for a file with no active job keeps the files'
      active jobs unique. */
  lemma InsertKeepsActiveUnique(t: Table, job: Job)
    requires WellFormed(t) && ActiveUnique(t)
    requires FindJob(t, job.filepath, true).None?
    ensures ActiveUnique(Insert(t, job))
  {
  }

  /** Changing one row without making a new active job for its file keeps
      the files' active jobs unique. */
  lemma UpdateKeepsActiveUnique(t: Table, id: nat, job: Job)
    requires ActiveUnique(t) && id in t.jobs
    requires Active(job) ==> Active(t.jobs[id]) && job.filepath == t.jobs[id].filepath
    ensures ActiveUnique(Table(t.jobs[id := job], t.nextId))
  {
  }

  /** The ids in `[from, nextId)` whose jobs satisfy `keep`, in ascending
      order. */
  function IdsWhere(t: Table, keep: Job -> bool, from: nat): (r: seq<nat>)
    ensures forall k | 0 <= k < |r| :: r[k] in t.jobs && keep(t.jobs[r[k]]) && from <= r[k] < t.nextId
    ensures forall k, l | 0 <= k < l < |r| :: r[k] < r[l]
    ensures forall id | from <= id < t.nextId && id in t.jobs && keep(t.jobs[id]) :: id in r
    decreases t.nextId - from
  {
    if from >= t.nextId then []
    else
      var rest := IdsWhere(t, keep, from + 1);
      if from in t.jobs && keep(t.jobs[from]) then [from] + rest else rest
  }

  /** The job table as an object: the scheduler, the watcher and the web
      handlers read and update its rows in place. */
  class JobStore {
    var jobs: map<nat, Job>
    var nextId: nat

    function Snapshot(): Table
      reads this
    {
      Table(jobs, nextId)
    }

    /** An empty table whose first id is 1. */
    constructor()
      ensures Snapshot() == Table(map[], 1)
    {
      jobs := map[];
      nextId := 1;
    }

    /** Adds a row and commits; the new row gets the next id. */
    method Add(job: Job) returns (id: nat)
      modifies this
      ensures Snapshot() == Insert(old(Snapshot()), job)
      ensures id == old(nextId)
    {
      id := nextId;
      jobs := jobs[id := job];
      nextId := nextId + 1;
    }

    /** Overwrites an existing row and commits. */
    method Put(id: nat, job: Job)
      requires id in jobs
      modifies this
      ensures jobs == old(jobs)[id := job] && nextId == old(nextId)
    {
      jobs := jobs[id := job];
    }

    /** `db.session.delete(job)`. */
    method Delete(id: nat)
      modifies this
      ensures jobs == old(jobs) - {id} && nextId == old(nextId)
    {
      jobs := jobs - {id};
    }
  }
}
