/** The data processor: per-row cleaning and derived metrics of the VM and
    alarm tables, the severity and priority tables, the resource-score
    buckets, the summary statistics, and the plan of files an export
    writes. Files are not written here: an export is the list of paths it
    produces, in order. */
module DataProcessor {
  import opened Base
  import opened Value
  import opened Counting
  import opened AnsibleParser
  import opened Config

  /** The numeric behaviour of pandas that the model does not define:
      `toNumber` is `pd.to_numeric` on a string cell (None for NaN),
      `round2` is `round(2)` on a float, and `toDatetime` is
      `pd.to_datetime` on a non-string timestamp cell (None for NaT). */
  datatype Numerics = Numerics(
    toNumber: string -> Option<real>,
    round2: real -> real,
    toDatetime: V -> Option<int>)

  // ---------------------------------------------------------------------
  // Numeric coercion: `pd.to_numeric(errors='coerce').fillna(0)`
  // ---------------------------------------------------------------------

  /** `pd.to_numeric(errors='coerce')` on one cell: booleans count as 0/1,
      strings go through the parser, everything else is NaN. */
  function ToNumeric(num: Numerics, v: V): Option<real> {
    match v
    case Bool(b) => Some(if b then 1.0 else 0.0)
    case Int(i) => Some(i as real)
    case Real(r) => Some(r)
    case Str(s) => num.toNumber(s)
    case _ => None
  }

  /** `astype(int)` on a float: truncation toward zero. */
  function Trunc(r: real): (n: int)
    ensures 0.0 <= r ==> 0 <= n && n as real <= r < n as real + 1.0
    ensures r < 0.0 ==> n <= 0 && n as real - 1.0 < r <= n as real
  {
    if r >= 0.0 then r.Floor else -((-r).Floor)
  }

  /** A cell coerced to an integer column, NaN becoming 0. */
  function IntCell(num: Numerics, v: V): int {
    match ToNumeric(num, v)
    case None => 0
    case Some(r) => Trunc(r)
  }

  /** A cell coerced to a float column, NaN becoming 0.0. */
  function RealCell(num: Numerics, v: V): real {
    match ToNumeric(num, v)
    case None => 0.0
    case Some(r) => r
  }

  /** Missing, null, structured and unparseable cells become 0; numbers and
      booleans keep their (truncated) value. */
  lemma CoercionDefaults(num: Numerics, v: V)
    ensures (v.Null? || v.List? || v.Obj?) ==> IntCell(num, v) == 0 && RealCell(num, v) == 0.0
    ensures v.Str? && num.toNumber(v.s).None? ==> IntCell(num, v) == 0 && RealCell(num, v) == 0.0
    ensures v.Int? ==> IntCell(num, v) == v.i && RealCell(num, v) == v.i as real
    ensures v.Bool? ==> IntCell(num, v) == (if v.b then 1 else 0)
    ensures v.Real? ==> -1.0 < RealCell(num, v) - IntCell(num, v) as real < 1.0
  {
  }

  // ---------------------------------------------------------------------
  // Resource buckets
  // ---------------------------------------------------------------------

  datatype Category = Low | Medium | High | Critical {
    function Rank(): nat {
      match this
      case Low => 0
      case Medium => 1
      case High => 2
      case Critical => 3
    }
  }

  /** `pd.cut` with bins 0, 10, 50, 100, inf and its default right-closed
      intervals; a score outside every bin gets no category. */
  function Bucket(score: real): (c: Option<Category>)
    ensures c.None? <==> score <= 0.0
    ensures c == Some(Low) <==> 0.0 < score <= 10.0
    ensures c == Some(Medium) <==> 10.0 < score <= 50.0
    ensures c == Some(High) <==> 50.0 < score <= 100.0
    ensures c == Some(Category.Critical) <==> 100.0 < score
  {
    if score <= 0.0 then None
    else if score <= 10.0 then Some(Low)
    else if score <= 50.0 then Some(Medium)
    else if score <= 100.0 then Some(High)
    else Some(Category.Critical)
  }

  /** A larger score never lands in a lower bucket. */
  lemma BucketMonotone(s: real, t: real)
    requires 0.0 < s <= t
    ensures Bucket(s).Some? && Bucket(t).Some?
    ensures Bucket(s).value.Rank() <= Bucket(t).value.Rank()
  {
  }

  /** The bin edges belong to the bucket below them. */
  lemma BucketEdges()
    ensures Bucket(0.0).None?
    ensures Bucket(10.0) == Some(Low)
    ensures Bucket(50.0) == Some(Medium)
    ensures Bucket(100.0) == Some(High)
  {
  }

  // ---------------------------------------------------------------------
  // VM cleaning: `_clean_vm_dataframe`
  // ---------------------------------------------------------------------

  datatype CleanVm = CleanVm(
    name: V, uuid: V, powerState: string,
    cpuCount: int, memoryMb: int, diskGb: real, networkCount: int,
    guestOs: V, hostName: V, clusterName: V, datacenterName: V,
    memoryGb: real, cpuMemoryRatio: real, totalResourcesScore: real,
    isPoweredOn: bool, resourceCategory: Option<Category>)

  /** `memory_gb / cpu_count.replace(0, 1)`: only a zero CPU count is
      replaced, by 1. */
  function CpuMemoryRatio(memGb: real, cpu: int): (r: real)
    ensures cpu != 0 ==> r == memGb / cpu as real
    ensures cpu == 0 ==> r == memGb
  {
    memGb / (if cpu == 0 then 1 else cpu) as real
  }

  /** `power_state.str.lower() == 'poweredon'`. */
  predicate IsPoweredOn(state: string) {
    Lower(state) == "poweredon"
  }

  function CleanVmRow(num: Numerics, vm: VmRecord): CleanVm {
    var cpu := IntCell(num, vm.cpuCount);
    var mem := IntCell(num, vm.memoryMb);
    var disk := RealCell(num, vm.diskGb);
    var memGb := num.round2(mem as real / 1024.0);
    var score := num.round2(cpu as real * 0.3 + memGb * 0.4 + disk * 0.3);
    CleanVm(
      name := if vm.name.Null? then Str("Unknown VM") else vm.name,
      uuid := vm.uuid,
      powerState := vm.powerState,
      cpuCount := cpu,
      memoryMb := mem,
      diskGb := disk,
      networkCount := IntCell(num, vm.networkCount),
      guestOs := vm.guestOs,
      hostName := vm.hostName,
      clusterName := vm.clusterName,
      datacenterName := vm.datacenterName,
      memoryGb := memGb,
      cpuMemoryRatio := num.round2(CpuMemoryRatio(memGb, cpu)),
      totalResourcesScore := score,
      isPoweredOn := IsPoweredOn(vm.powerState),
      resourceCategory := Bucket(score))
  }

  function CleanVms(num: Numerics, vms: seq<VmRecord>): (r: seq<CleanVm>)
    ensures |r| == |vms|
    ensures forall i | 0 <= i < |vms| :: r[i] == CleanVmRow(num, vms[i])
  {
    seq(|vms|, i requires 0 <= i < |vms| => CleanVmRow(num, vms[i]))
  }

  /** What the cleaned row holds: the name defaults to "Unknown VM", the
      counts are the coerced cells, memory in GB is megabytes over 1024,
      the ratio divides by the CPU count (1 when there are none), the score
      weighs CPUs, memory and disk 0.3/0.4/0.3, and the category is the
      bucket of that score. */
  lemma CleanVmFacts(num: Numerics, vm: VmRecord)
    ensures var c := CleanVmRow(num, vm);
      (vm.name.Null? ==> c.name == Str("Unknown VM")) &&
      (!vm.name.Null? ==> c.name == vm.name) &&
      c.cpuCount == IntCell(num, vm.cpuCount) && c.memoryMb == IntCell(num, vm.memoryMb) &&
      c.diskGb == RealCell(num, vm.diskGb) && c.networkCount == IntCell(num, vm.networkCount) &&
      c.memoryGb == num.round2(c.memoryMb as real / 1024.0) &&
      (c.cpuCount != 0 ==> c.cpuMemoryRatio == num.round2(c.memoryGb / c.cpuCount as real)) &&
      (c.cpuCount == 0 ==> c.cpuMemoryRatio == num.round2(c.memoryGb)) &&
      c.totalResourcesScore == num.round2(0.3 * c.cpuCount as real + 0.4 * c.memoryGb + 0.3 * c.diskGb) &&
      (c.resourceCategory.None? <==> c.totalResourcesScore <= 0.0) &&
      (c.resourceCategory == Some(Low) <==> 0.0 < c.totalResourcesScore <= 10.0)
  {
  }

  /** For a record the extractor produced, "powered on" is exactly the
      power state "poweredon", because that state is already lower case. */
  lemma PoweredOnIffPoweredOnState(num: Numerics, d: seq<(string, V)>)
    requires NormalizeVm(Obj(d)).Ok?
    ensures CleanVmRow(num, NormalizeVm(Obj(d)).value).isPoweredOn <==>
            NormalizeVm(Obj(d)).value.powerState == "poweredon"
  {
    NormalizeVmParts(d);
    PowerStateIsLowerCase(d);
    LowerIdempotent(PowerState(d).value);
  }

  /** A web server with 4 CPUs, 8192 MB of memory and 100.5 GB of disk. */
  const WebServer: VmRecord := VmRecord(Str("web-01"), Null, "poweredon", Int(4), Int(8192),
                                        Real(100.5), Int(1), Null, Null, Null, Null)

  /** The metrics of any record with 4 CPUs, 8192 MB and 100.5 GB. */
  lemma WebServerCells(num: Numerics, vm: VmRecord)
    requires vm.cpuCount == Int(4) && vm.memoryMb == Int(8192) && vm.diskGb == Real(100.5)
    ensures var c := CleanVmRow(num, vm);
      c.cpuCount == 4 && c.memoryMb == 8192 && c.diskGb == 100.5 &&
      c.memoryGb == num.round2(8.0) && c.cpuMemoryRatio == num.round2(c.memoryGb / 4.0) &&
      c.totalResourcesScore == num.round2(0.3 * 4.0 + 0.4 * c.memoryGb + 0.3 * 100.5)
  {
    IntCellOfInt(num, 4);
    IntCellOfInt(num, 8192);
    assert 8192 as real / 1024.0 == 8.0;
  }

  lemma IntCellOfInt(num: Numerics, i: int)
    ensures IntCell(num, Int(i)) == i
  {
    assert Trunc(i as real) == i;
  }

  /** The worked example: 8 GB of memory, a ratio of 2, a score of 34.55
      and so the Medium bucket, when rounding leaves those values alone. */
  lemma WebServerExample(num: Numerics)
    requires num.round2(8.0) == 8.0 && num.round2(2.0) == 2.0 && num.round2(34.55) == 34.55
    ensures var c := CleanVmRow(num, WebServer);
      c.memoryGb == 8.0 && c.cpuMemoryRatio == 2.0 && c.totalResourcesScore == 34.55 &&
      c.isPoweredOn && c.resourceCategory == Some(Medium)
  {
    WebServerCells(num, WebServer);
    WebServerArithmetic();
    var c := CleanVmRow(num, WebServer);
    assert c.resourceCategory == Bucket(c.totalResourcesScore);
    PoweredOnIsLowerCase();
    assert c.isPoweredOn;
  }

  lemma WebServerArithmetic()
    ensures 8.0 / 4.0 == 2.0
    ensures 0.3 * 4.0 + 0.4 * 8.0 + 0.3 * 100.5 == 34.55
  {
  }

  lemma PoweredOnIsLowerCase()
    ensures IsPoweredOn("poweredon")
  {
    LowerOfLowerCase("poweredon");
  }

  // ---------------------------------------------------------------------
  // Alarm cleaning: `_clean_alarm_dataframe`
  // ---------------------------------------------------------------------

  datatype Severity = Critical | Warning | Information | Normal | Unknown

  /** `severity_mapping`, in its own order. */
  const SeverityTable: seq<(string, Severity)> := [
    ("critical", Severity.Critical), ("error", Severity.Critical), ("warning", Warning),
    ("info", Information), ("information", Information), ("normal", Normal), ("unknown", Unknown)]

  function TableLookup(table: seq<(string, Severity)>, k: string): (r: Option<Severity>)
    ensures r.Some? ==> (k, r.value) in table
    ensures r.None? ==> forall i | 0 <= i < |table| :: table[i].0 != k
  {
    if table == [] then None
    else if table[0].0 == k then Some(table[0].1)
    else TableLookup(table[1..], k)
  }

  /** `severity.str.lower().map(severity_mapping).fillna('Unknown')`. */
  function NormalizeSeverity(s: string): Severity {
    match TableLookup(SeverityTable, Lower(s))
    case Some(sev) => sev
    case None => Unknown
  }

  /** Which spellings give which normalised severity; every other string is
      Unknown. */
  lemma SeverityClasses(s: string)
    ensures NormalizeSeverity(s) == Severity.Critical <==> Lower(s) == "critical" || Lower(s) == "error"
    ensures NormalizeSeverity(s) == Warning <==> Lower(s) == "warning"
    ensures NormalizeSeverity(s) == Information <==> Lower(s) == "info" || Lower(s) == "information"
    ensures NormalizeSeverity(s) == Normal <==> Lower(s) == "normal"
  {
    SeverityTableEntries(Lower(s));
  }

  /** Lower-casing first changes nothing: the mapping ignores case. */
  lemma SeverityIgnoresCase(s: string)
    ensures NormalizeSeverity(s) == NormalizeSeverity(Lower(s))
  {
    LowerIdempotent(s);
  }

  /** The table read entry by entry: a key that is none of the seven
      listed gives no entry. */
  lemma SeverityTableEntries(l: string)
    ensures TableLookup(SeverityTable, l) ==
      if l == "critical" || l == "error" then Some(Severity.Critical)
      else if l == "warning" then Some(Warning)
      else if l == "info" || l == "information" then Some(Information)
      else if l == "normal" then Some(Normal)
      else if l == "unknown" then Some(Unknown)
      else None
  {
    var t := SeverityTable;
    assert t[1..][1..][1..][1..][1..][1..][1..] == [];
  }

  /** `priority_scores`. */
  function Priority(sev: Severity): nat {
    match sev
    case Critical => 5
    case Warning => 3
    case Unknown => 2
    case Information => 1
    case Normal => 0
  }

  /** Every normalised severity has a priority, no two share one, and they
      are ordered Critical, Warning, Unknown, Information, Normal. */
  lemma PriorityOrder(a: Severity, b: Severity)
    ensures Priority(a) == Priority(b) <==> a == b
    ensures Priority(Severity.Critical) > Priority(Warning) > Priority(Unknown) > Priority(Information) > Priority(Normal)
    ensures Priority(a) <= 5
  {
  }

  datatype CleanAlarm = CleanAlarm(
    name: V, description: V, severity: string, status: string, vmName: V,
    triggeredTime: Option<int>, acknowledged: V,
    severityNormalized: Severity, priorityScore: nat, daysSinceTriggered: Option<int>)

  /** `pd.to_datetime(errors='coerce')` on the triggered-time cell. */
  function TriggeredCell(num: Numerics, t: Triggered): Option<int> {
    match t
    case NoTime => None
    case Parsed(x, _) => Some(x)
    case Raw(v) => num.toDatetime(v)
  }

  /** `(now - t).dt.days`: whole days elapsed, rounded down. */
  function DaysSince(now: int, t: int): (d: int)
    ensures d * 86400 <= now - t < (d + 1) * 86400
  {
    (now - t) / 86400
  }

  /** One cleaned alarm row; `now` is the clock reading in seconds. */
  function CleanAlarmRow(num: Numerics, now: int, a: AlarmRecord): CleanAlarm {
    var sev := NormalizeSeverity(a.severity);
    var t := TriggeredCell(num, a.triggered);
    CleanAlarm(
      name := if a.name.Null? then Str("Unknown Alarm") else a.name,
      description := a.description,
      severity := a.severity,
      status := a.status,
      vmName := if a.vmName.Null? then Str("Unknown VM") else a.vmName,
      triggeredTime := t,
      acknowledged := if a.acknowledged.Null? then Bool(false) else a.acknowledged,
      severityNormalized := sev,
      priorityScore := Priority(sev),
      daysSinceTriggered := if t.Some? then Some(DaysSince(now, t.value)) else None)
  }

  /** An alarm whose triggered time was read with a time zone. */
  predicate AwareTime(a: AlarmRecord) {
    a.triggered.Parsed? && a.triggered.aware
  }

  /** `datetime.now()` is naive, so it cannot be subtracted from a column
      of zone-aware times. */
  function SubtractionError(): Error {
    TypeError("Cannot subtract tz-naive and tz-aware datetime-like objects")
  }

  /** What `_clean_alarm_dataframe` raises for a list of alarms, if
      anything: the subtraction fails as soon as one time is aware. */
  function AlarmCleaningError(alarms: seq<AlarmRecord>): Option<Error> {
    if exists i | 0 <= i < |alarms| :: AwareTime(alarms[i]) then Some(SubtractionError()) else None
  }

  /** `_clean_alarm_dataframe`: every row cleaned, or the subtraction's
      exception when some triggered time is aware. */
  function CleanAlarms(num: Numerics, now: int, alarms: seq<AlarmRecord>): (r: Result<seq<CleanAlarm>>)
    ensures r.Err? <==> exists i | 0 <= i < |alarms| :: AwareTime(alarms[i])
    ensures r.Err? ==> r.error == SubtractionError()
    ensures r.Ok? ==> |r.value| == |alarms| &&
                      forall i | 0 <= i < |alarms| :: r.value[i] == CleanAlarmRow(num, now, alarms[i])
  {
    match AlarmCleaningError(alarms)
    case Some(e) => Err(e)
    case None => Ok(seq(|alarms|, i requires 0 <= i < |alarms| => CleanAlarmRow(num, now, alarms[i])))
  }

  /** A cleaned alarm has no null name, VM name or acknowledgement, its
      priority is the priority of its normalised severity, and it has an
      age exactly when its triggered time is known; an aware triggered
      time anywhere in the list makes the cleaning raise instead. */
  lemma CleanAlarmFacts(num: Numerics, now: int, alarms: seq<AlarmRecord>, i: nat)
    requires i < |alarms|
    ensures AwareTime(alarms[i]) ==> CleanAlarms(num, now, alarms) == Err(SubtractionError())
    ensures CleanAlarms(num, now, alarms).Ok? ==>
      var a := alarms[i];
      var c := CleanAlarms(num, now, alarms).value[i];
      !c.name.Null? && !c.vmName.Null? && !c.acknowledged.Null? &&
      (a.acknowledged.Null? ==> c.acknowledged == Bool(false)) &&
      c.priorityScore == Priority(c.severityNormalized) &&
      c.severityNormalized == NormalizeSeverity(a.severity) &&
      (c.daysSinceTriggered.Some? <==> c.triggeredTime.Some?) &&
      (a.triggered.NoTime? ==> c.daysSinceTriggered.None?) &&
      (a.triggered.Parsed? ==> !a.triggered.aware && c.daysSinceTriggered == Some(DaysSince(now, a.triggered.t)))
  {
  }

  // ---------------------------------------------------------------------
  // Summary statistics: `_calculate_vm_statistics`, `_calculate_alarm_statistics`
  // ---------------------------------------------------------------------

  datatype VmStats = VmStats(
    totalCount: nat,
    powerStateDistribution: seq<(string, nat)>,
    averageCpuCount: real,
    averageMemoryGb: real,
    totalDiskGb: real,
    guestOsDistribution: seq<(V, nat)>)

  datatype AlarmStats = AlarmStats(
    totalCount: nat,
    severityDistribution: seq<(Severity, nat)>,
    acknowledgedCounts: Option<(nat, nat)>,
    uniqueVmsWithAlarms: nat)

  function Sum(xs: seq<real>): real
    decreases |xs|
  {
    if xs == [] then 0.0 else Sum(xs[..|xs| - 1]) + xs[|xs| - 1]
  }

  /** `value_counts()` ignores missing values. */
  function NonNull(xs: seq<V>): (r: seq<V>)
    ensures |r| <= |xs|
    ensures forall v | v in r :: v in xs && !v.Null?
    ensures forall v | v in xs && !v.Null? :: v in r
    decreases |xs|
  {
    if xs == [] then []
    else
      var front := NonNull(xs[..|xs| - 1]);
      var x := xs[|xs| - 1];
      assert forall v | v in xs :: v in xs[..|xs| - 1] || v == x;
      if x.Null? then front else front + [x]
  }

  /** A cell `value_counts` and `nunique` can hash: lists and mappings are
      not hashable. */
  predicate Hashable(v: V) {
    !v.List? && !v.Obj?
  }

  function UnhashableError(v: V): Error {
    TypeError("unhashable type: '" + TypeName(v) + "'")
  }

  /** What hashing a column raises: the first unhashable cell's type. */
  function HashError(xs: seq<V>): (r: Option<Error>)
    ensures r.None? <==> forall i | 0 <= i < |xs| :: Hashable(xs[i])
    ensures r.Some? ==> exists i | 0 <= i < |xs| ::
              !Hashable(xs[i]) && (forall j | 0 <= j < i :: Hashable(xs[j])) && r.value == UnhashableError(xs[i])
  {
    if xs == [] then None
    else if !Hashable(xs[0]) then Some(UnhashableError(xs[0]))
    else
      var r := HashError(xs[1..]);
      assert forall i | 1 <= i < |xs| :: xs[1..][i - 1] == xs[i];
      r
  }

  function GuestOsColumn(vms: seq<VmRecord>): seq<V> {
    seq(|vms|, i requires 0 <= i < |vms| => vms[i].guestOs)
  }

  function VmNameColumn(rows: seq<CleanAlarm>): seq<V> {
    seq(|rows|, i requires 0 <= i < |rows| => rows[i].vmName)
  }

  /** `_calculate_vm_statistics`: None stands for the empty dictionary
      returned for an empty list; `value_counts` on the guest systems
      raises on an unhashable one. */
  function VmStatistics(num: Numerics, vms: seq<VmRecord>): Result<Option<VmStats>> {
    if vms == [] then Ok(None)
    else
      var rows := CleanVms(num, vms);
      match HashError(GuestOsColumn(vms))
      case Some(e) => Err(e)
      case None =>
        var n := |rows| as real;
        Ok(Some(VmStats(
          totalCount := |rows|,
          powerStateDistribution := ValueCounts(seq(|rows|, i requires 0 <= i < |rows| => rows[i].powerState)),
          averageCpuCount := Sum(seq(|rows|, i requires 0 <= i < |rows| => rows[i].cpuCount as real)) / n,
          averageMemoryGb := Sum(seq(|rows|, i requires 0 <= i < |rows| => rows[i].memoryMb as real / 1024.0)) / n,
          totalDiskGb := Sum(seq(|rows|, i requires 0 <= i < |rows| => rows[i].diskGb)),
          guestOsDistribution := Head(ValueCounts(NonNull(seq(|rows|, i requires 0 <= i < |rows| => rows[i].guestOs))), 10))))
  }

  /** `acknowledged.sum()` and `(~acknowledged).sum()`, defined when every
      value is a boolean (null having become False). */
  function AckCounts(rows: seq<CleanAlarm>): Option<(nat, nat)>
    decreases |rows|
  {
    if rows == [] then Some((0, 0))
    else
      var last := rows[|rows| - 1].acknowledged;
      match AckCounts(rows[..|rows| - 1])
      case None => None
      case Some((a, u)) =>
        if !last.Bool? then None
        else if last.b then Some((a + 1, u)) else Some((a, u + 1))
  }

  /** `_calculate_alarm_statistics`: None for an empty list; the cleaning's
      exception, or `nunique`'s on an unhashable VM name, propagates. */
  function AlarmStatistics(num: Numerics, now: int, alarms: seq<AlarmRecord>): Result<Option<AlarmStats>> {
    if alarms == [] then Ok(None)
    else
      var rows :- CleanAlarms(num, now, alarms);
      match HashError(VmNameColumn(rows))
      case Some(e) => Err(e)
      case None =>
        Ok(Some(AlarmStats(
          totalCount := |rows|,
          severityDistribution := ValueCounts(seq(|rows|, i requires 0 <= i < |rows| => rows[i].severityNormalized)),
          acknowledgedCounts := AckCounts(rows),
          uniqueVmsWithAlarms := |Distinct(VmNameColumn(rows))|)))
  }

  lemma {:induction false} AckCountsTotal(rows: seq<CleanAlarm>)
    ensures AckCounts(rows).Some? <==> forall i | 0 <= i < |rows| :: rows[i].acknowledged.Bool?
    ensures AckCounts(rows).Some? ==> AckCounts(rows).value.0 + AckCounts(rows).value.1 == |rows|
    decreases |rows|
  {
    if rows != [] {
      var front := rows[..|rows| - 1];
      AckCountsTotal(front);
      assert forall i | 0 <= i < |front| :: front[i] == rows[i];
    }
  }

  /** The VM summary exists for every non-empty list of hashable guest
      systems; it counts every row once in the power-state distribution,
      and the guest-OS distribution keeps at most the ten most frequent
      systems, each with its true count. */
  lemma VmStatisticsFacts(num: Numerics, vms: seq<VmRecord>)
    ensures VmStatistics(num, vms) == Ok(None) <==> vms == []
    ensures VmStatistics(num, vms).Err? <==> exists i | 0 <= i < |vms| :: !Hashable(vms[i].guestOs)
    ensures VmStatistics(num, vms).Ok? && VmStatistics(num, vms).value.Some? ==>
      var s := VmStatistics(num, vms).value.value;
      var rows := CleanVms(num, vms);
      var oses := NonNull(seq(|rows|, i requires 0 <= i < |rows| => rows[i].guestOs));
      s.totalCount == |vms| &&
      SumCounts(s.powerStateDistribution) == s.totalCount &&
      |s.guestOsDistribution| <= 10 &&
      SortedByCount(s.guestOsDistribution) &&
      (forall p | p in s.guestOsDistribution :: !p.0.Null? && p.1 == Count(oses, p.0))
  {
    if vms != [] {
      var rows := CleanVms(num, vms);
      var states := seq(|rows|, i requires 0 <= i < |rows| => rows[i].powerState);
      var oses := NonNull(seq(|rows|, i requires 0 <= i < |rows| => rows[i].guestOs));
      assert forall i | 0 <= i < |vms| :: GuestOsColumn(vms)[i] == vms[i].guestOs;
      ValueCountsFacts(states);
      MostCommon(oses, 10);
    }
  }

  /** `value_counts().head(n)`: at most n pairs, most frequent first, each
      with its true count. */
  lemma MostCommon(xs: seq<V>, n: nat)
    ensures var h := Head(ValueCounts(xs), n);
      |h| <= n && SortedByCount(h) && forall p | p in h :: p.0 in xs && p.1 == Count(xs, p.0)
  {
    ValueCountsFacts(xs);
    var vc := ValueCounts(xs);
    var h := Head(vc, n);
    forall p | p in h ensures p.0 in xs && p.1 == Count(xs, p.0) {
      var k :| 0 <= k < |h| && h[k] == p;
      assert vc[k] == p;
    }
  }

  /** The alarm summary raises exactly when some triggered time is aware
      or some VM name is a list or mapping; otherwise the severity
      distribution counts every alarm once, acknowledged plus
      unacknowledged is the total whenever the acknowledgements are
      booleans, and the number of distinct VMs never exceeds the number of
      alarms. */
  lemma AlarmStatisticsFacts(num: Numerics, now: int, alarms: seq<AlarmRecord>)
    ensures AlarmStatistics(num, now, alarms) == Ok(None) <==> alarms == []
    ensures AlarmStatistics(num, now, alarms).Err? <==>
              (exists i | 0 <= i < |alarms| :: AwareTime(alarms[i])) ||
              (exists i | 0 <= i < |alarms| :: !Hashable(alarms[i].vmName))
    ensures AlarmStatistics(num, now, alarms).Ok? && AlarmStatistics(num, now, alarms).value.Some? ==>
      var s := AlarmStatistics(num, now, alarms).value.value;
      var rows := CleanAlarms(num, now, alarms).value;
      s.totalCount == |alarms| &&
      SumCounts(s.severityDistribution) == s.totalCount &&
      (s.acknowledgedCounts.Some? ==> s.acknowledgedCounts.value.0 + s.acknowledgedCounts.value.1 == s.totalCount) &&
      (s.acknowledgedCounts.Some? <==> forall i | 0 <= i < |rows| :: rows[i].acknowledged.Bool?) &&
      s.uniqueVmsWithAlarms == |Distinct(VmNameColumn(rows))| &&
      1 <= s.uniqueVmsWithAlarms <= s.totalCount
  {
    var c := CleanAlarms(num, now, alarms);
    if alarms != [] && c.Ok? {
      VmNamesHashable(num, now, alarms, c.value);
      if HashError(VmNameColumn(c.value)).None? {
        AlarmStatsCounts(num, now, alarms, c.value);
      }
    }
  }

  /** The cleaned VM names are hashable exactly where the extracted ones
      are: a null name becomes the string `Unknown VM`. */
  lemma VmNamesHashable(num: Numerics, now: int, alarms: seq<AlarmRecord>, rows: seq<CleanAlarm>)
    requires CleanAlarms(num, now, alarms) == Ok(rows)
    ensures HashError(VmNameColumn(rows)).None? <==> forall i | 0 <= i < |alarms| :: Hashable(alarms[i].vmName)
  {
    var names := VmNameColumn(rows);
    assert forall i | 0 <= i < |alarms| :: Hashable(names[i]) <==> Hashable(alarms[i].vmName);
  }

  /** The counts of a summary that is produced. */
  lemma AlarmStatsCounts(num: Numerics, now: int, alarms: seq<AlarmRecord>, rows: seq<CleanAlarm>)
    requires alarms != [] && CleanAlarms(num, now, alarms) == Ok(rows)
    requires HashError(VmNameColumn(rows)).None?
    ensures AlarmStatistics(num, now, alarms).Ok? && AlarmStatistics(num, now, alarms).value.Some?
    ensures var s := AlarmStatistics(num, now, alarms).value.value;
      s.totalCount == |alarms| &&
      SumCounts(s.severityDistribution) == s.totalCount &&
      (s.acknowledgedCounts.Some? ==> s.acknowledgedCounts.value.0 + s.acknowledgedCounts.value.1 == s.totalCount) &&
      (s.acknowledgedCounts.Some? <==> forall i | 0 <= i < |rows| :: rows[i].acknowledged.Bool?) &&
      s.uniqueVmsWithAlarms == |Distinct(VmNameColumn(rows))| &&
      1 <= s.uniqueVmsWithAlarms <= s.totalCount
  {
    var sevs := seq(|rows|, i requires 0 <= i < |rows| => rows[i].severityNormalized);
    var names := VmNameColumn(rows);
    ValueCountsFacts(sevs);
    AckCountsTotal(rows);
    assert names[0] in Distinct(names);
  }

  /** An alarm list from the extractor always has boolean acknowledgements
      when its documents did, so the two counts then add up. */
  lemma DefaultAcknowledgementIsFalse(num: Numerics, now: int, a: AlarmRecord)
    requires a.acknowledged.Null? || a.acknowledged.Bool?
    ensures CleanAlarmRow(num, now, a).acknowledged.Bool?
  {
  }

  // ---------------------------------------------------------------------
  // Output naming: `_process_*_data`, `_export_dataframe`, `process_data`
  // ---------------------------------------------------------------------

  /** The job-level tags `ProcessingJob.query.get(job_id)` supplies. */
  datatype JobTags = JobTags(environment: Option<string>, client: Option<string>)

  predicate TruthyText(s: Option<string>) {
    s.Some? && s.value != []
  }

  /** How an f-string renders an optional string. */
  function Text(s: Option<string>): string {
    match s
    case None => "None"
    case Some(t) => t
  }

  /** `env_suffix`: set only when the job is known and both tags are
      non-empty. */
  function EnvSuffix(job: Option<JobTags>): (r: string)
    ensures r != [] <==> job.Some? && TruthyText(job.value.environment) && TruthyText(job.value.client)
  {
    if job.Some? && TruthyText(job.value.environment) && TruthyText(job.value.client) then
      "_" + job.value.client.value + "_" + job.value.environment.value
    else ""
  }

  /** The three files one data frame is exported to, in order. */
  function ExportPaths(outDir: string, base: string): (r: seq<string>)
    ensures |r| == 3
    ensures EndsWith(r[0], base + ".csv") && EndsWith(r[1], base + ".xlsx") && EndsWith(r[2], base + ".json")
  {
    [Join(outDir, base + ".csv"), Join(outDir, base + ".xlsx"), Join(outDir, base + ".json")]
  }

  /** `_export_dataframe`: the CSV, then the workbook, then the JSON file. */
  method ExportDataFrame(outDir: string, base: string) returns (files: seq<string>)
    ensures files == ExportPaths(outDir, base)
  {
    files := [];
    files := files + [Join(outDir, base + ".csv")];
    files := files + [Join(outDir, base + ".xlsx")];
    files := files + [Join(outDir, base + ".json")];
  }

  /** The client recorded on the first row of environment `e`, rendered as
      text; "unknown" when no row has that environment. */
  function GroupClient(envs: seq<Option<string>>, clients: seq<Option<string>>, e: string): string
    requires |envs| == |clients|
  {
    if envs == [] then "unknown"
    else if envs[0] == Some(e) then Text(clients[0])
    else GroupClient(envs[1..], clients[1..], e)
  }

  function GroupBase(kind: string, client: string, env: string, ts: string): string {
    "vcenter_" + kind + "_" + client + "_" + env + "_" + ts
  }

  /** The files written for the environment groups `groups`, skipping the
      missing environment. */
  function GroupsPaths(kind: string, outDir: string, ts: string,
                       envs: seq<Option<string>>, clients: seq<Option<string>>,
                       groups: seq<Option<string>>): seq<string>
    requires |envs| == |clients|
    decreases |groups|
  {
    if groups == [] then []
    else
      var front := GroupsPaths(kind, outDir, ts, envs, clients, groups[..|groups| - 1]);
      var g := groups[|groups| - 1];
      if g.None? then front
      else front + ExportPaths(outDir, GroupBase(kind, GroupClient(envs, clients, g.value), g.value, ts))
  }

  /** The per-environment loop over the environment column's distinct
      values. */
  method PartitionExports(kind: string, outDir: string, ts: string,
                          envs: seq<Option<string>>, clients: seq<Option<string>>) returns (files: seq<string>)
    requires |envs| == |clients|
    ensures files == GroupsPaths(kind, outDir, ts, envs, clients, Distinct(envs))
  {
    var groups := Distinct(envs);
    files := [];
    var i := 0;
    while i < |groups|
      invariant 0 <= i <= |groups|
      invariant files == GroupsPaths(kind, outDir, ts, envs, clients, groups[..i])
    {
      assert groups[..i + 1][..i] == groups[..i];
      var env := groups[i];
      if env.Some? {
        var client := GroupClient(envs, clients, env.value);
        var written := ExportDataFrame(outDir, GroupBase(kind, client, env.value, ts));
        files := files + written;
      }
      i := i + 1;
    }
    assert groups[..i] == groups;
  }

  /** The environment or client column: the job's value on every row. */
  function Column(n: nat, v: Option<string>): (r: seq<Option<string>>)
    ensures |r| == n
    ensures forall i | 0 <= i < n :: r[i] == v
  {
    seq(n, _ => v)
  }

  /** The files `_process_vm_data` (kind "vms") or `_process_alarm_data`
      (kind "alarms") writes for `n` rows, given the job's tags if the job
      was found. */
  function SectionPaths(kind: string, n: nat, job: Option<JobTags>, ts: string, outDir: string): seq<string> {
    if SeparateByEnvironment && job.Some? then
      var envs := Column(n, job.value.environment);
      GroupsPaths(kind, outDir, ts, envs, Column(n, job.value.client), Distinct(envs))
    else
      ExportPaths(outDir, "vcenter_" + kind + EnvSuffix(job) + "_" + ts)
  }

  method ProcessSection(kind: string, n: nat, job: Option<JobTags>, ts: string, outDir: string) returns (files: seq<string>)
    ensures files == SectionPaths(kind, n, job, ts, outDir)
  {
    var suffix := EnvSuffix(job);
    if SeparateByEnvironment && job.Some? {
      files := PartitionExports(kind, outDir, ts, Column(n, job.value.environment), Column(n, job.value.client));
    } else {
      files := ExportDataFrame(outDir, "vcenter_" + kind + suffix + "_" + ts);
    }
  }

  lemma {:induction false} DistinctOfColumn(n: nat, v: Option<string>)
    requires n > 0
    ensures Distinct(Column(n, v)) == [v]
  {
    var c := Column(n, v);
    assert c[..n - 1] == Column(n - 1, v);
    if n > 1 {
      DistinctOfColumn(n - 1, v);
    }
  }

  /** Every row carries the job's single environment, so a section with
      rows produces one export when the job is unknown (no suffix), none
      when the job's environment is missing, and otherwise exactly one
      named after the job's client and environment. */
  lemma SectionHasAtMostOneExport(kind: string, n: nat, job: Option<JobTags>, ts: string, outDir: string)
    requires n > 0
    ensures job.None? ==> SectionPaths(kind, n, job, ts, outDir) == ExportPaths(outDir, "vcenter_" + kind + "_" + ts)
    ensures job.Some? && job.value.environment.None? ==> SectionPaths(kind, n, job, ts, outDir) == []
    ensures job.Some? && job.value.environment.Some? ==>
              SectionPaths(kind, n, job, ts, outDir) ==
              ExportPaths(outDir, GroupBase(kind, Text(job.value.client), job.value.environment.value, ts))
  {
    if job.None? {
      assert EnvSuffix(job) == "";
      assert "vcenter_" + kind + EnvSuffix(job) == "vcenter_" + kind;
    } else {
      var env := job.value.environment;
      var envs := Column(n, env);
      var clients := Column(n, job.value.client);
      DistinctOfColumn(n, env);
      assert [env][..0] == [];
      assert GroupsPaths(kind, outDir, ts, envs, clients, []) == [];
      if env.Some? {
        assert envs[0] == Some(env.value);
        assert GroupClient(envs, clients, env.value) == Text(job.value.client);
      }
    }
  }

  /** A section of rows writes nothing or one triple. */
  lemma SectionLength(kind: string, n: nat, job: Option<JobTags>, ts: string, outDir: string)
    requires n > 0
    ensures |SectionPaths(kind, n, job, ts, outDir)| == 0 || |SectionPaths(kind, n, job, ts, outDir)| == 3
    ensures job.Some? && job.value.environment.None? ==> SectionPaths(kind, n, job, ts, outDir) == []
  {
    SectionHasAtMostOneExport(kind, n, job, ts, outDir);
  }

  function SummaryPath(outDir: string, ts: string): string {
    Join(outDir, "processing_summary_" + ts + ".json")
  }

  /** A section's files, none when it has no rows. */
  function SectionOf(kind: string, n: nat, job: Option<JobTags>, ts: string, outDir: string): seq<string> {
    if n > 0 then SectionPaths(kind, n, job, ts, outDir) else []
  }

  /** The paths `process_data` returns: the VM section if there are VMs,
      then the alarm section if there are alarms, then the summary. */
  function OutputPlan(vmCount: nat, alarmCount: nat, job: Option<JobTags>, ts: string, outDir: string): seq<string> {
    SectionOf("vms", vmCount, job, ts, outDir) + SectionOf("alarms", alarmCount, job, ts, outDir) +
    [SummaryPath(outDir, ts)]
  }

  /** `process_data`; `ts` is the formatted clock reading shared by all the
      files of one run. */
  method ProcessData(parsed: ParsedData, job: Option<JobTags>, ts: string, outDir: string) returns (files: seq<string>)
    ensures files == OutputPlan(|parsed.vms|, |parsed.alarms|, job, ts, outDir)
    ensures |files| >= 1 && files[|files| - 1] == SummaryPath(outDir, ts)
  {
    files := [];
    if parsed.vms != [] {
      var vmFiles := ProcessSection("vms", |parsed.vms|, job, ts, outDir);
      files := files + vmFiles;
    }
    assert files == if |parsed.vms| > 0 then SectionPaths("vms", |parsed.vms|, job, ts, outDir) else [];
    if parsed.alarms != [] {
      var alarmFiles := ProcessSection("alarms", |parsed.alarms|, job, ts, outDir);
      files := files + alarmFiles;
    }
    var sections := files;
    files := files + [SummaryPath(outDir, ts)];
    assert files[|sections|] == SummaryPath(outDir, ts);
  }

  /** A section's contribution to the plan: nothing or one triple, and
      nothing without rows or without an environment. */
  lemma SectionOfLength(kind: string, n: nat, job: Option<JobTags>, ts: string, outDir: string)
    ensures var q := SectionOf(kind, n, job, ts, outDir);
      (|q| == 0 || |q| == 3) &&
      (n == 0 || (job.Some? && job.value.environment.None?) ==> q == [])
  {
    if n > 0 {
      SectionLength(kind, n, job, ts, outDir);
    }
  }

  /** The summary is always there and always last; each section adds
      either nothing or one CSV/workbook/JSON triple. */
  lemma OutputPlanShape(vmCount: nat, alarmCount: nat, job: Option<JobTags>, ts: string, outDir: string)
    ensures var p := OutputPlan(vmCount, alarmCount, job, ts, outDir);
      p[|p| - 1] == SummaryPath(outDir, ts) &&
      |p| % 3 == 1 && |p| <= 7 &&
      (job.Some? && job.value.environment.None? ==> p == [SummaryPath(outDir, ts)]) &&
      (vmCount == 0 && alarmCount == 0 ==> p == [SummaryPath(outDir, ts)])
  {
    var a := SectionOf("vms", vmCount, job, ts, outDir);
    var b := SectionOf("alarms", alarmCount, job, ts, outDir);
    SectionOfLength("vms", vmCount, job, ts, outDir);
    SectionOfLength("alarms", alarmCount, job, ts, outDir);
    var p := a + b + [SummaryPath(outDir, ts)];
    assert OutputPlan(vmCount, alarmCount, job, ts, outDir) == p;
    assert |p| == |a| + |b| + 1;
    assert p[|p| - 1] == SummaryPath(outDir, ts);
  }

  /** The summary report's content: job id, the totals and both
      statistics; the processing time and metadata are not modelled. */
  datatype Summary = Summary(jobId: nat, totalVms: nat, totalAlarms: nat,
                             vmStatistics: Option<VmStats>, alarmStatistics: Option<AlarmStats>)

  /** `_generate_summary_report`: the statistics, VM first, or the first
      exception computing them raises; the file is opened only after. */
  function SummaryReport(num: Numerics, now: int, parsed: ParsedData, jobId: nat): (r: Result<Summary>)
    ensures r.Ok? ==> r.value.jobId == jobId && r.value.totalVms == |parsed.vms| && r.value.totalAlarms == |parsed.alarms|
    ensures r.Ok? && r.value.vmStatistics.Some? ==> r.value.vmStatistics.value.totalCount == |parsed.vms|
    ensures r.Ok? && r.value.alarmStatistics.Some? ==> r.value.alarmStatistics.value.totalCount == |parsed.alarms|
  {
    var vmStats :- VmStatistics(num, parsed.vms);
    var alarmStats :- AlarmStatistics(num, now, parsed.alarms);
    Ok(Summary(jobId, |parsed.vms|, |parsed.alarms|, vmStats, alarmStats))
  }

  /** The VM-name column after `fillna('Unknown VM')`. */
  function FilledVmNames(alarms: seq<AlarmRecord>): seq<V> {
    seq(|alarms|, i requires 0 <= i < |alarms| => if alarms[i].vmName.Null? then Str("Unknown VM") else alarms[i].vmName)
  }

  /** What the summary raises, read off the records alone: an unhashable
      guest system, else an aware alarm time, else an unhashable VM
      name. */
  function SummaryError(parsed: ParsedData): Option<Error> {
    if parsed.vms != [] && HashError(GuestOsColumn(parsed.vms)).Some? then HashError(GuestOsColumn(parsed.vms))
    else if AlarmCleaningError(parsed.alarms).Some? then AlarmCleaningError(parsed.alarms)
    else if parsed.alarms != [] then HashError(FilledVmNames(parsed.alarms))
    else None
  }

  /** The summary raises exactly the exception `SummaryError` names,
      whatever the numerics and the clock. */
  lemma SummaryReportRaises(num: Numerics, now: int, parsed: ParsedData, jobId: nat)
    ensures SummaryReport(num, now, parsed, jobId).Err? <==> SummaryError(parsed).Some?
    ensures SummaryReport(num, now, parsed, jobId).Err? ==>
              SummaryReport(num, now, parsed, jobId).error == SummaryError(parsed).value
  {
    var c := CleanAlarms(num, now, parsed.alarms);
    if c.Ok? {
      assert VmNameColumn(c.value) == FilledVmNames(parsed.alarms);
    }
  }

  // ---------------------------------------------------------------------
  // The outcome of `process_data`
  // ---------------------------------------------------------------------

  /** An exception from a file writer (`to_csv`, the Excel writer,
      `to_json`, `json.dump`): `at` is the position in the plan of the
      write that raises (a position past the end is the last write), and
      `leftBehind` whether that file exists afterwards. */
  datatype WriteFailure = WriteFailure(error: Error, at: nat, leftBehind: bool)

  /** What `process_data` ends with: the files it returns, or the exception
      it raises with the planned files on disk by then, in plan order. */
  datatype ExportResult = Exported(files: seq<string>) | Raised(error: Error, written: seq<string>)

  function Min(a: nat, b: nat): nat {
    if a <= b then a else b
  }

  /** Which exception ends a run of writes `0..last`, and how many files
      are complete by then: the writer's failure when it comes before the
      data's exception (raised once `dataAt` files are written), else the
      data's. */
  function Stop(io: Option<WriteFailure>, dataError: Option<Error>, dataAt: nat, last: nat): (r: Option<(Error, nat)>)
    requires dataAt <= last
    ensures r.None? <==> io.None? && dataError.None?
    ensures r.Some? ==> r.value.1 <= last + 1
    ensures r.Some? && r.value.1 == last + 1 ==> io.Some? && io.value.leftBehind && io.value.at >= last
    ensures io.Some? && io.value.at <= last && (dataError.None? || io.value.at < dataAt) ==>
              r == Some((io.value.error, if io.value.leftBehind then io.value.at + 1 else io.value.at))
    ensures dataError.Some? && (io.None? || io.value.at >= dataAt) ==> r == Some((dataError.value, dataAt))
  {
    if io.Some? && (dataError.None? || Min(io.value.at, last) < dataAt) then
      var at := Min(io.value.at, last);
      Some((io.value.error, if io.value.leftBehind then at + 1 else at))
    else if dataError.Some? then Some((dataError.value, dataAt))
    else None
  }

  lemma StopsAtWriter(f: WriteFailure, dataError: Option<Error>, dataAt: nat, last: nat)
    requires dataAt <= last && f.at <= last && (dataError.None? || f.at < dataAt)
    ensures Stop(Some(f), dataError, dataAt, last) == Some((f.error, if f.leftBehind then f.at + 1 else f.at))
  {
  }

  /** `process_data` on the parsed data, when the writers raise `io` (if
      anything): the files are written in plan order; the alarm cleaning
      runs after the VM files and the statistics after the alarm files,
      and the first exception of the three kinds ends the export. */
  function ExportOutcome(parsed: ParsedData, job: Option<JobTags>, ts: string, outDir: string,
                         io: Option<WriteFailure>): (r: ExportResult)
    ensures var plan := OutputPlan(|parsed.vms|, |parsed.alarms|, job, ts, outDir);
      (r.Exported? <==> io.None? && AlarmCleaningError(parsed.alarms).None? && SummaryError(parsed).None?) &&
      (r.Exported? ==> r.files == plan) &&
      (r.Raised? ==> exists k | 0 <= k <= |plan| :: r.written == plan[..k]) &&
      (r.Raised? && |r.written| == |plan| ==> io.Some? && io.value.leftBehind && io.value.at >= |plan| - 1)
  {
    var plan := OutputPlan(|parsed.vms|, |parsed.alarms|, job, ts, outDir);
    match Stop(io, DataError(parsed), DataAt(parsed, job, ts, outDir), |plan| - 1)
    case None => Exported(plan)
    case Some((e, k)) => Raised(e, plan[..k])
  }

  /** The exception the data raises during the export: the alarm
      cleaning's, else the statistics'. */
  function DataError(parsed: ParsedData): (r: Option<Error>)
    ensures r.None? <==> AlarmCleaningError(parsed.alarms).None? && SummaryError(parsed).None?
  {
    if AlarmCleaningError(parsed.alarms).Some? then AlarmCleaningError(parsed.alarms) else SummaryError(parsed)
  }

  /** How many planned files are complete when the data raises: the VM
      files for the cleaning, all but the summary for the statistics. */
  function DataAt(parsed: ParsedData, job: Option<JobTags>, ts: string, outDir: string): (n: nat)
    ensures n < |OutputPlan(|parsed.vms|, |parsed.alarms|, job, ts, outDir)|
  {
    if AlarmCleaningError(parsed.alarms).Some? then |SectionOf("vms", |parsed.vms|, job, ts, outDir)|
    else |OutputPlan(|parsed.vms|, |parsed.alarms|, job, ts, outDir)| - 1
  }

  /** An aware alarm time fails the export after the VM files, unless a
      writer failed before: the VM files stay, and no alarm file or
      summary is written. */
  lemma AwareAlarmsKeepVmFiles(parsed: ParsedData, job: Option<JobTags>, ts: string, outDir: string,
                               io: Option<WriteFailure>)
    requires exists i | 0 <= i < |parsed.alarms| :: AwareTime(parsed.alarms[i])
    requires io.None? || io.value.at >= |SectionOf("vms", |parsed.vms|, job, ts, outDir)|
    ensures ExportOutcome(parsed, job, ts, outDir, io) ==
              Raised(SubtractionError(), SectionOf("vms", |parsed.vms|, job, ts, outDir))
  {
    var vmFiles := SectionOf("vms", |parsed.vms|, job, ts, outDir);
    var plan := OutputPlan(|parsed.vms|, |parsed.alarms|, job, ts, outDir);
    assert plan[..|vmFiles|] == vmFiles;
  }

  /** A statistics exception fails the export once every data file is
      written, unless a writer failed before: only the summary is
      missing. */
  lemma StatisticsErrorSkipsSummary(parsed: ParsedData, job: Option<JobTags>, ts: string, outDir: string,
                                    io: Option<WriteFailure>)
    requires AlarmCleaningError(parsed.alarms).None? && SummaryError(parsed).Some?
    requires io.None? || io.value.at >= |OutputPlan(|parsed.vms|, |parsed.alarms|, job, ts, outDir)| - 1
    ensures ExportOutcome(parsed, job, ts, outDir, io) ==
              Raised(SummaryError(parsed).value,
                     SectionOf("vms", |parsed.vms|, job, ts, outDir) + SectionOf("alarms", |parsed.alarms|, job, ts, outDir))
  {
    var a := SectionOf("vms", |parsed.vms|, job, ts, outDir);
    var b := SectionOf("alarms", |parsed.alarms|, job, ts, outDir);
    var plan := OutputPlan(|parsed.vms|, |parsed.alarms|, job, ts, outDir);
    assert plan == a + b + [SummaryPath(outDir, ts)];
    assert plan[..|plan| - 1] == a + b;
  }

  /** A writer that fails before the data does ends the export there:
      the files before it stay, with the failing one if it was left
      behind. */
  lemma WriterFailsFirst(parsed: ParsedData, job: Option<JobTags>, ts: string, outDir: string, f: WriteFailure)
    requires f.at < |OutputPlan(|parsed.vms|, |parsed.alarms|, job, ts, outDir)|
    requires AlarmCleaningError(parsed.alarms).Some? ==> f.at < |SectionOf("vms", |parsed.vms|, job, ts, outDir)|
    requires SummaryError(parsed).Some? ==> f.at < |OutputPlan(|parsed.vms|, |parsed.alarms|, job, ts, outDir)| - 1
    ensures var plan := OutputPlan(|parsed.vms|, |parsed.alarms|, job, ts, outDir);
      ExportOutcome(parsed, job, ts, outDir, Some(f)) == Raised(f.error, plan[..if f.leftBehind then f.at + 1 else f.at])
  {
    var plan := OutputPlan(|parsed.vms|, |parsed.alarms|, job, ts, outDir);
    var n := DataAt(parsed, job, ts, outDir);
    assert DataError(parsed).None? || f.at < n by {
      if AlarmCleaningError(parsed.alarms).Some? {
        assert n == |SectionOf("vms", |parsed.vms|, job, ts, outDir)|;
      } else if SummaryError(parsed).Some? {
        assert n == |plan| - 1;
      }
    }
    WriterBeforeData(parsed, job, ts, outDir, f);
  }

  lemma WriterBeforeData(parsed: ParsedData, job: Option<JobTags>, ts: string, outDir: string, f: WriteFailure)
    requires f.at < |OutputPlan(|parsed.vms|, |parsed.alarms|, job, ts, outDir)|
    requires DataError(parsed).None? || f.at < DataAt(parsed, job, ts, outDir)
    ensures var plan := OutputPlan(|parsed.vms|, |parsed.alarms|, job, ts, outDir);
      ExportOutcome(parsed, job, ts, outDir, Some(f)) == Raised(f.error, plan[..if f.leftBehind then f.at + 1 else f.at])
  {
    var plan := OutputPlan(|parsed.vms|, |parsed.alarms|, job, ts, outDir);
    var k := if f.leftBehind then f.at + 1 else f.at;
    StopsAtWriter(f, DataError(parsed), DataAt(parsed, job, ts, outDir), |plan| - 1);
  }

  // ---------------------------------------------------------------------
  // Column widths: `_format_vm_data_columns`, `_format_alarm_data_columns`
  // ---------------------------------------------------------------------

  /** The longest rendered cell of a column, 0 for none. */
  function MaxLen(cells: seq<string>): (m: nat)
    ensures forall c | c in cells :: |c| <= m
    ensures cells != [] ==> exists c | c in cells :: |c| == m
    decreases |cells|
  {
    if cells == [] then 0
    else
      var front := cells[..|cells| - 1];
      var m := MaxLen(front);
      var last := cells[|cells| - 1];
      assert forall c | c in cells :: c in front || c == last;
      assert front != [] ==> exists c | c in front :: |c| == m;
      if |last| > m then |last| else m
  }

  /** The width given to one column: two more than its longest cell
      (header included), capped at 50. */
  method ColumnWidth(cells: seq<string>) returns (w: nat)
    ensures w == if MaxLen(cells) + 2 < 50 then MaxLen(cells) + 2 else 50
    ensures 2 <= w <= 50
    ensures forall c | c in cells :: |c| + 2 <= w || w == 50
  {
    var maxLength := 0;
    var i := 0;
    while i < |cells|
      invariant 0 <= i <= |cells|
      invariant maxLength == MaxLen(cells[..i])
    {
      assert cells[..i + 1][..i] == cells[..i];
      if |cells[i]| > maxLength {
        maxLength := |cells[i]|;
      }
      i := i + 1;
    }
    assert cells[..i] == cells;
    w := if maxLength + 2 < 50 then maxLength + 2 else 50;
  }

  /** One width per column, each the capped width of that column. */
  method ColumnWidths(columns: seq<seq<string>>) returns (widths: seq<nat>)
    ensures |widths| == |columns|
    ensures forall k | 0 <= k < |columns| ::
              widths[k] == if MaxLen(columns[k]) + 2 < 50 then MaxLen(columns[k]) + 2 else 50
    ensures forall k | 0 <= k < |columns| :: widths[k] <= 50
  {
    widths := [];
    var k := 0;
    while k < |columns|
      invariant 0 <= k <= |columns|
      invariant |widths| == k
      invariant forall j | 0 <= j < k ::
                  widths[j] == if MaxLen(columns[j]) + 2 < 50 then MaxLen(columns[j]) + 2 else 50
    {
      var w := ColumnWidth(columns[k]);
      widths := widths + [w];
      k := k + 1;
    }
  }
}
