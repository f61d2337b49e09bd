/** The extractor of services/ansible_parser.py: it recognises the top-level
    shape of a decoded Ansible/vCenter document, finds the leaf result
    objects, probes each for VM and alarm containers, and normalises every
    record it finds through fixed alias lists. An exception raised anywhere
    aborts the whole file, so every step returns a `Result`.

    The functions below are the specification; the methods at the end walk
    the document with loops that append to the shared result lists, as the
    Python does, and are proved to compute exactly the specification. */
module AnsibleParser {
  import opened Base
  import opened Value

  /** A `datetime` in seconds, and whether it carries a time zone. */
  datatype Instant = Instant(seconds: int, aware: bool)

  /** What `dateutil.parser.parse` makes of a string: a time, aware when
      the string names a zone or offset, or None when it raises. */
  type DateParser = string -> Option<Instant>

  datatype Triggered =
    | NoTime                      // absent, falsy, or a string the date parser rejects
    | Parsed(t: int, aware: bool) // a string the date parser accepted
    | Raw(v: V)         // a truthy non-string value, kept as it is

  /** `_normalize_vm_data`'s dictionary. Fields resolved by `or` chains keep
      whatever value the document held; only the power state is forced to
      a string. */
  datatype VmRecord = VmRecord(
    name: V, uuid: V, powerState: string,
    cpuCount: V, memoryMb: V, diskGb: V, networkCount: V,
    guestOs: V, hostName: V, clusterName: V, datacenterName: V)

  /** `_normalize_alarm_data`'s dictionary. */
  datatype AlarmRecord = AlarmRecord(
    name: V, description: V, severity: string, status: string,
    vmName: V, triggered: Triggered, acknowledged: V)

  /** The shared `result['vms']` / `result['alarms']` lists. */
  datatype Extraction = Extraction(vms: seq<VmRecord>, alarms: seq<AlarmRecord>)

  /** What `_extract_vcenter_data` returns; the parse timestamp of its
      metadata comes from the clock and is not modelled. */
  datatype ParsedData = ParsedData(
    vms: seq<VmRecord>, alarms: seq<AlarmRecord>, totalVms: nat, totalAlarms: nat)

  const Empty := Extraction([], [])

  const SupportedFormats: seq<string> := [".json", ".yaml", ".yml"]
  const VmLocations: seq<string> :=
    ["vm_info", "virtual_machines", "vms", "instances", "vm_facts", "vmware_vm_info", "vcenter_vm_info"]
  const AlarmLocations: seq<string> :=
    ["alarms", "vm_alarms", "alerts", "events", "alarm_info", "vmware_alarms"]
  const VmIndicators: seq<string> :=
    ["name", "uuid", "instance_uuid", "power_state", "num_cpu", "memory_mb", "guest_fullname"]

  function NoAttribute(v: V, attr: string): Error {
    AttributeError("'" + TypeName(v) + "' object has no attribute '" + attr + "'")
  }

  // ---------------------------------------------------------------------
  // Normalisation of one VM
  // ---------------------------------------------------------------------

  /** The running total of `sum(...)`: Python starts from the integer 0,
      and the total is a float from the first float added on. */
  datatype Total = Total(value: real, isFloat: bool)

  /** `disk.get('size_kb', 0)`. */
  function SizeKb(disk: V): V
    requires disk.Obj?
  {
    GetOr(disk.fields, "size_kb", Int(0))
  }

  /** A disk entry `sum` can add: a mapping whose size is a number or a
      boolean. */
  predicate GoodDisk(disk: V) {
    disk.Obj? && (SizeKb(disk).Int? || SizeKb(disk).Real? || SizeKb(disk).Bool?)
  }

  /** The amount a good disk adds; `True` counts as 1. */
  function Amount(disk: V): real
    requires GoodDisk(disk)
  {
    match SizeKb(disk)
    case Int(i) => i as real
    case Real(r) => r
    case Bool(b) => if b then 1.0 else 0.0
  }

  /** What adding a bad disk to `total` raises: a non-mapping has no `get`,
      and `+` names the total's type and the size's. */
  function DiskError(isFloat: bool, disk: V): Error
    requires !GoodDisk(disk)
  {
    if !disk.Obj? then NoAttribute(disk, "get")
    else TypeError("unsupported operand type(s) for +: '" + (if isFloat then "float" else "int") +
                   "' and '" + TypeName(SizeKb(disk)) + "'")
  }

  /** `sum(disk.get('size_kb', 0) for disk in disks)`, one disk at a time. */
  function AddDiskSize(total: Total, disk: V): Result<Total> {
    if GoodDisk(disk) then Ok(Total(total.value + Amount(disk), total.isFloat || SizeKb(disk).Real?))
    else Err(DiskError(total.isFloat, disk))
  }

  /** The `disk_gb` field: a truthy `disk_gb`/`disk_size_gb`, else the summed
      `size_kb` of a `disk` list in GiB (None when the sum is not positive),
      else the falsy value the `or` chain produced. */
  function DiskGb(d: seq<(string, V)>): Result<V> {
    var direct := Or(Get(d, "disk_gb"), Get(d, "disk_size_gb"));
    if !Truthy(direct) && HasKey(d, "disk") && Get(d, "disk").List? then
      var total :- Fold(Get(d, "disk").items, Total(0.0, false), AddDiskSize);
      Ok(if total.value > 0.0 then Real(total.value / (1024.0 * 1024.0)) else Null)
    else Ok(direct)
  }

  /** `network_count` if truthy, else `len(networks)` with `[]` for a
      missing key. */
  function NetworkCount(d: seq<(string, V)>): Result<V> {
    var direct := Get(d, "network_count");
    if Truthy(direct) then Ok(direct)
    else
      var n :- Len(GetOr(d, "networks", List([])));
      Ok(Int(n))
  }

  /** `.lower()` applied to the result of an `or` chain. */
  function LowerValue(v: V): Result<string> {
    if v.Str? then Ok(Lower(v.s)) else Err(NoAttribute(v, "lower"))
  }

  /** `power_state` (or `runtime.powerState`) lower-cased, `'unknown'` when
      falsy; a truthy non-string has no `lower` and raises. */
  function PowerState(d: seq<(string, V)>): Result<string> {
    var ps := Or(Get(d, "power_state"), Get(d, "runtime.powerState"));
    if Truthy(ps) then LowerValue(ps) else Ok("unknown")
  }

  function NormalizeVm(vm: V): Result<VmRecord> {
    if !vm.Obj? then Err(NoAttribute(vm, "get"))
    else
      var d := vm.fields;
      var power :- PowerState(d);
      var disk :- DiskGb(d);
      var net :- NetworkCount(d);
      Ok(VmRecord(
          name := Or(Or(Get(d, "name"), Get(d, "vm_name")), GetOr(d, "guest_name", Str("Unknown"))),
          uuid := Or(Or(Get(d, "uuid"), Get(d, "instance_uuid")), Get(d, "vm_uuid")),
          powerState := power,
          cpuCount := Or(Or(Get(d, "num_cpu"), Get(d, "cpu_count")), Get(d, "config.hardware.numCPU")),
          memoryMb := Or(Or(Get(d, "memory_mb"), Get(d, "memory_size_mb")), Get(d, "config.hardware.memoryMB")),
          diskGb := disk,
          networkCount := net,
          guestOs := Or(Or(Get(d, "guest_fullname"), Get(d, "guest_os")), Get(d, "config.guestFullName")),
          hostName := Or(Get(d, "host_name"), Get(d, "runtime.host")),
          clusterName := Or(Get(d, "cluster_name"), Get(d, "cluster")),
          datacenterName := Or(Get(d, "datacenter_name"), Get(d, "datacenter"))))
  }

  // ---------------------------------------------------------------------
  // Normalisation of one alarm
  // ---------------------------------------------------------------------

  /** The triggered time: a truthy string goes through the date parser and
      becomes None when parsing fails; a truthy non-string is kept. */
  function TriggeredTime(parse: DateParser, t: V): Triggered {
    if !Truthy(t) then NoTime
    else if t.Str? then
      match parse(t.s)
      case Some(x) => Parsed(x.seconds, x.aware)
      case None => NoTime
    else Raw(t)
  }

  function NormalizeAlarm(parse: DateParser, alarm: V): Result<AlarmRecord> {
    if !alarm.Obj? then Err(NoAttribute(alarm, "get"))
    else
      var d := alarm.fields;
      var severity :- LowerValue(Or(Get(d, "severity"), GetOr(d, "alarm_severity", Str("unknown"))));
      var status :- LowerValue(Or(Get(d, "status"), GetOr(d, "alarm_status", Str("unknown"))));
      Ok(AlarmRecord(
        name := Or(Get(d, "name"), GetOr(d, "alarm_name", Str("Unknown Alarm"))),
        description := Or(Get(d, "description"), GetOr(d, "alarm_description", Str(""))),
        severity := severity,
        status := status,
        vmName := Or(Or(Get(d, "vm_name"), Get(d, "entity_name")), GetOr(d, "object_name", Str("Unknown VM"))),
        triggered := TriggeredTime(parse, Or(Or(Get(d, "triggered_time"), Get(d, "time")), Get(d, "created_time"))),
        acknowledged := GetOr(d, "acknowledged", Bool(false))))
  }

  // ---------------------------------------------------------------------
  // Scanning one leaf result object
  // ---------------------------------------------------------------------

  /** `any(indicator in data for indicator in keys)`, stopping at the first
      hit (and at the first exception). */
  function AnyIn(keys: seq<string>, data: V): Result<bool> {
    if keys == [] then Ok(false)
    else
      var hit :- In(keys[0], data);
      if hit then Ok(true) else AnyIn(keys[1..], data)
  }

  function LooksLikeVm(data: V): Result<bool> {
    AnyIn(VmIndicators, data)
  }

  /** Appends one VM from a mapping entry: a mapping value gets the entry
      key as its default `name`; any other value is skipped. */
  function VmEntryStep(acc: seq<VmRecord>, entry: (string, V)): Result<seq<VmRecord>> {
    if entry.1.Obj? then
      var r :- NormalizeVm(Obj(SetDefault(entry.1.fields, "name", Str(entry.0))));
      Ok(acc + [r])
    else Ok(acc)
  }

  /** The records one VM container contributes. */
  function FromVmContainer(c: V, acc: seq<VmRecord>): Result<seq<VmRecord>> {
    match c
    case List(xs) => Fold(xs, acc, AppendStepFn(NormalizeVm))
    case Obj(fs) => Fold(fs, acc, VmEntryStep)
    case _ => Ok(acc)
  }

  /** The `for location in vm_locations ... break` loop: the first location
      present in `data` is the only one used. */
  function VmContainerScan(data: V, locs: seq<string>, acc: seq<VmRecord>): Result<seq<VmRecord>> {
    if locs == [] then Ok(acc)
    else
      var present :- In(locs[0], data);
      if present then
        var c :- Index(data, locs[0]);
        FromVmContainer(c, acc)
      else VmContainerScan(data, locs[1..], acc)
  }

  /** `_extract_vm_data_from_result`: container records, then the leaf
      itself when it looks like a VM. */
  function VmScan(data: V, acc: seq<VmRecord>): Result<seq<VmRecord>> {
    var fromContainers :- VmContainerScan(data, VmLocations, acc);
    var looks :- LooksLikeVm(data);
    if looks then
      var r :- NormalizeVm(data);
      Ok(fromContainers + [r])
    else Ok(fromContainers)
  }

  function NormalizeAlarmFn(parse: DateParser): V -> Result<AlarmRecord> {
    alarm => NormalizeAlarm(parse, alarm)
  }

  /** One alarm-mapping entry: a mapping value is one alarm named by default
      after its key, a list value contributes every element, anything else
      is skipped. */
  function AlarmEntryStep(parse: DateParser, acc: seq<AlarmRecord>, entry: (string, V)): Result<seq<AlarmRecord>> {
    match entry.1
    case Obj(fs) =>
      var r :- NormalizeAlarm(parse, Obj(SetDefault(fs, "name", Str(entry.0))));
      Ok(acc + [r])
    case List(xs) => Fold(xs, acc, AppendStepFn(NormalizeAlarmFn(parse)))
    case _ => Ok(acc)
  }

  function AlarmEntryStepFn(parse: DateParser): (seq<AlarmRecord>, (string, V)) -> Result<seq<AlarmRecord>> {
    (acc, entry) => AlarmEntryStep(parse, acc, entry)
  }

  function FromAlarmContainer(parse: DateParser, c: V, acc: seq<AlarmRecord>): Result<seq<AlarmRecord>> {
    match c
    case List(xs) => Fold(xs, acc, AppendStepFn(NormalizeAlarmFn(parse)))
    case Obj(fs) => Fold(fs, acc, AlarmEntryStepFn(parse))
    case _ => Ok(acc)
  }

  /** `_extract_alarm_data_from_result`: the first alarm location present
      is the only one used. */
  function AlarmScan(parse: DateParser, data: V, locs: seq<string>, acc: seq<AlarmRecord>): Result<seq<AlarmRecord>> {
    if locs == [] then Ok(acc)
    else
      var present :- In(locs[0], data);
      if present then
        var c :- Index(data, locs[0]);
        FromAlarmContainer(parse, c, acc)
      else AlarmScan(parse, data, locs[1..], acc)
  }

  /** Both scans, VM first, on one leaf result object. */
  function LeafStep(parse: DateParser, acc: Extraction, leaf: V): Result<Extraction> {
    var vms :- VmScan(leaf, acc.vms);
    var alarms :- AlarmScan(parse, leaf, AlarmLocations, acc.alarms);
    Ok(Extraction(vms, alarms))
  }

  function LeafStepFn(parse: DateParser): (Extraction, V) -> Result<Extraction> {
    (acc, leaf) => LeafStep(parse, acc, leaf)
  }

  // ---------------------------------------------------------------------
  // Shapes of the whole document
  // ---------------------------------------------------------------------

  /** One `(host, host_result)` pair of a task's `hosts` mapping. */
  function HostStep(parse: DateParser, acc: Extraction, host: (string, V)): Result<Extraction> {
    LeafStep(parse, acc, host.1)
  }

  function HostStepFn(parse: DateParser): (Extraction, (string, V)) -> Result<Extraction> {
    (acc, host) => HostStep(parse, acc, host)
  }

  /** One task: `task.get('hosts', {}).items()`. */
  function TaskStep(parse: DateParser, acc: Extraction, task: V): Result<Extraction> {
    if !task.Obj? then Err(NoAttribute(task, "get"))
    else
      var hosts := GetOr(task.fields, "hosts", Obj([]));
      if !hosts.Obj? then Err(NoAttribute(hosts, "items"))
      else Fold(hosts.fields, acc, HostStepFn(parse))
  }

  function TaskStepFn(parse: DateParser): (Extraction, V) -> Result<Extraction> {
    (acc, task) => TaskStep(parse, acc, task)
  }

  /** One play: `for task in play.get('tasks', [])`. */
  function PlayStep(parse: DateParser, acc: Extraction, play: V): Result<Extraction> {
    if !play.Obj? then Err(NoAttribute(play, "get"))
    else
      var tasks :- Iter(GetOr(play.fields, "tasks", List([])));
      Fold(tasks, acc, TaskStepFn(parse))
  }

  function PlayStepFn(parse: DateParser): (Extraction, V) -> Result<Extraction> {
    (acc, play) => PlayStep(parse, acc, play)
  }

  /** `_parse_playbook_structure`. */
  function PlaybookShape(parse: DateParser, plays: V): Result<Extraction> {
    var ps :- Iter(plays);
    Fold(ps, Empty, PlayStepFn(parse))
  }

  /** `_parse_results_structure`: a list of leaves, or one leaf. */
  function ResultsShape(parse: DateParser, results: V): Result<Extraction> {
    if results.List? then Fold(results.items, Empty, LeafStepFn(parse))
    else LeafStep(parse, Empty, results)
  }

  /** The step of the top-level list shape: only mapping elements are
      scanned. */
  function DirectItemStep(parse: DateParser, acc: Extraction, item: V): Result<Extraction> {
    if item.Obj? then LeafStep(parse, acc, item) else Ok(acc)
  }

  function DirectItemStepFn(parse: DateParser): (Extraction, V) -> Result<Extraction> {
    (acc, item) => DirectItemStep(parse, acc, item)
  }

  /** The shape dispatch of `_extract_vcenter_data`. */
  function Extracted(parse: DateParser, data: V): Result<Extraction> {
    match data
    case Obj(d) =>
      if HasKey(d, "plays") then PlaybookShape(parse, Get(d, "plays"))
      else if HasKey(d, "results") then ResultsShape(parse, Get(d, "results"))
      else if HasKey(d, "ansible_facts") then LeafStep(parse, Empty, Get(d, "ansible_facts"))
      else LeafStep(parse, Empty, data)
    case List(xs) => Fold(xs, Empty, DirectItemStepFn(parse))
    case _ => Ok(Empty)
  }

  /** `_extract_vcenter_data`'s result with its metadata counts. */
  function WithTotals(e: Extraction): (r: ParsedData)
    ensures r.vms == e.vms && r.alarms == e.alarms
    ensures r.totalVms == |r.vms| && r.totalAlarms == |r.alarms|
  {
    ParsedData(e.vms, e.alarms, |e.vms|, |e.alarms|)
  }

  /** `parse_file`: the lower-cased extension must be supported, then the
      decoder's outcome (an oracle here) is extracted. */
  function ParseFile(parse: DateParser, path: string, decoded: Result<V>): (r: Result<ParsedData>)
    ensures Lower(Extension(path)) !in SupportedFormats ==>
              r == Err(ValueError("Unsupported file format: " + Lower(Extension(path))))
    ensures Lower(Extension(path)) in SupportedFormats && decoded.Err? ==> r == Err(decoded.error)
    ensures r.Ok? ==> r.value.totalVms == |r.value.vms| && r.value.totalAlarms == |r.value.alarms|
  {
    var ext := Lower(Extension(path));
    if ext !in SupportedFormats then Err(ValueError("Unsupported file format: " + ext))
    else
      var data :- decoded;
      var e :- Extracted(parse, data);
      Ok(WithTotals(e))
  }

  // ---------------------------------------------------------------------
  // Properties of the extractor
  // ---------------------------------------------------------------------

  /** A VM list contributes one normalised record per element, in order,
      after the records already collected; it raises exactly when some
      element fails to normalise. */
  lemma VmListRecords(xs: seq<V>, acc: seq<VmRecord>)
    ensures FromVmContainer(List(xs), acc).Ok? <==> forall k | 0 <= k < |xs| :: NormalizeVm(xs[k]).Ok?
    ensures FromVmContainer(List(xs), acc).Ok? ==>
              var r := FromVmContainer(List(xs), acc).value;
              |r| == |acc| + |xs| && r[..|acc|] == acc &&
              forall k | 0 <= k < |xs| :: r[|acc| + k] == NormalizeVm(xs[k]).value
  {
    AppendAll(xs, acc, NormalizeVm);
  }

  /** The VM inputs a mapping container holds: its mapping-valued entries,
      each with `name` defaulted to the entry key, in order. */
  function DictVmInputs(fs: seq<(string, V)>): (r: seq<V>)
    ensures |r| <= |fs|
  {
    if fs == [] then []
    else
      var last := fs[|fs| - 1];
      DictVmInputs(fs[..|fs| - 1]) +
        if last.1.Obj? then [Obj(SetDefault(last.1.fields, "name", Str(last.0)))] else []
  }

  /** A VM mapping is handled as the list of its mapping-valued entries,
      each named after its key unless it has a `name`. */
  lemma {:induction false} VmDictIsList(fs: seq<(string, V)>, acc: seq<VmRecord>)
    ensures Fold(fs, acc, VmEntryStep) == Fold(DictVmInputs(fs), acc, AppendStepFn(NormalizeVm))
    decreases |fs|
  {
    if fs != [] {
      var n := |fs| - 1;
      var front := fs[..n];
      var last := fs[n];
      VmDictIsList(front, acc);
      var tail := if last.1.Obj? then [Obj(SetDefault(last.1.fields, "name", Str(last.0)))] else [];
      DictVmInputsLast(fs);
      FoldAppend(DictVmInputs(front), tail, acc, AppendStepFn(NormalizeVm));
      match Fold(front, acc, VmEntryStep)
      case Err(_) =>
      case Ok(s) =>
        if tail != [] {
          FoldSingle(tail[0], s, AppendStepFn(NormalizeVm));
        }
    }
  }

  lemma DictVmInputsLast(fs: seq<(string, V)>)
    requires fs != []
    ensures var last := fs[|fs| - 1];
      DictVmInputs(fs) == DictVmInputs(fs[..|fs| - 1]) +
        if last.1.Obj? then [Obj(SetDefault(last.1.fields, "name", Str(last.0)))] else []
  {
  }

  /** The alarm inputs a mapping container holds: a mapping value is one
      alarm named after its key by default, a list value contributes all
      its elements, anything else nothing. */
  function DictAlarmInputs(fs: seq<(string, V)>): seq<V> {
    if fs == [] then []
    else
      var last := fs[|fs| - 1];
      DictAlarmInputs(fs[..|fs| - 1]) +
        match last.1
        case Obj(f) => [Obj(SetDefault(f, "name", Str(last.0)))]
        case List(xs) => xs
        case _ => []
  }

  lemma {:induction false} AlarmDictIsList(parse: DateParser, fs: seq<(string, V)>, acc: seq<AlarmRecord>)
    ensures Fold(fs, acc, AlarmEntryStepFn(parse)) == Fold(DictAlarmInputs(fs), acc, AppendStepFn(NormalizeAlarmFn(parse)))
    decreases |fs|
  {
    if fs != [] {
      var n := |fs| - 1;
      var front := fs[..n];
      var last := fs[n];
      AlarmDictIsList(parse, front, acc);
      var tail := match last.1
        case Obj(f) => [Obj(SetDefault(f, "name", Str(last.0)))]
        case List(xs) => xs
        case _ => [];
      DictAlarmInputsLast(fs);
      FoldAppend(DictAlarmInputs(front), tail, acc, AppendStepFn(NormalizeAlarmFn(parse)));
      match Fold(front, acc, AlarmEntryStepFn(parse))
      case Err(_) =>
      case Ok(s) =>
        if last.1.Obj? {
          FoldSingle(tail[0], s, AppendStepFn(NormalizeAlarmFn(parse)));
        }
    }
  }

  lemma DictAlarmInputsLast(fs: seq<(string, V)>)
    requires fs != []
    ensures var last := fs[|fs| - 1];
      DictAlarmInputs(fs) == DictAlarmInputs(fs[..|fs| - 1]) +
        match last.1
        case Obj(f) => [Obj(SetDefault(f, "name", Str(last.0)))]
        case List(xs) => xs
        case _ => []
  {
  }

  /** An alarm list contributes one record per element, in order. */
  lemma AlarmListRecords(parse: DateParser, xs: seq<V>, acc: seq<AlarmRecord>)
    ensures FromAlarmContainer(parse, List(xs), acc).Ok? <==>
              forall k | 0 <= k < |xs| :: NormalizeAlarm(parse, xs[k]).Ok?
    ensures FromAlarmContainer(parse, List(xs), acc).Ok? ==>
              var r := FromAlarmContainer(parse, List(xs), acc).value;
              |r| == |acc| + |xs| && r[..|acc|] == acc &&
              forall k | 0 <= k < |xs| :: r[|acc| + k] == NormalizeAlarm(parse, xs[k]).value
  {
    AppendAll(xs, acc, NormalizeAlarmFn(parse));
  }

  /** On a mapping leaf only the first VM location present is used; when
      none is present the container scan adds nothing. */
  lemma {:induction false} VmFirstLocationWins(d: seq<(string, V)>, locs: seq<string>, i: nat, acc: seq<VmRecord>)
    requires i <= |locs|
    requires forall j | 0 <= j < i :: !HasKey(d, locs[j])
    requires i < |locs| ==> HasKey(d, locs[i])
    ensures VmContainerScan(Obj(d), locs, acc) ==
              if i < |locs| then FromVmContainer(Get(d, locs[i]), acc) else Ok(acc)
    decreases i
  {
    if i > 0 {
      assert !HasKey(d, locs[0]);
      VmFirstLocationWins(d, locs[1..], i - 1, acc);
    }
  }

  /** The same for the alarm locations. */
  lemma {:induction false} AlarmFirstLocationWins(parse: DateParser, d: seq<(string, V)>, locs: seq<string>, i: nat, acc: seq<AlarmRecord>)
    requires i <= |locs|
    requires forall j | 0 <= j < i :: !HasKey(d, locs[j])
    requires i < |locs| ==> HasKey(d, locs[i])
    ensures AlarmScan(parse, Obj(d), locs, acc) ==
              if i < |locs| then FromAlarmContainer(parse, Get(d, locs[i]), acc) else Ok(acc)
    decreases i
  {
    if i > 0 {
      assert !HasKey(d, locs[0]);
      AlarmFirstLocationWins(parse, d, locs[1..], i - 1, acc);
    }
  }

  /** A mapping looks like a VM exactly when it has an indicator key. */
  lemma {:induction false} LooksLikeVmIffIndicator(d: seq<(string, V)>, keys: seq<string>)
    ensures AnyIn(keys, Obj(d)) == Ok(exists k | k in keys :: HasKey(d, k))
    decreases |keys|
  {
    if keys != [] {
      LooksLikeVmIffIndicator(d, keys[1..]);
      assert forall k :: k in keys <==> k == keys[0] || k in keys[1..];
    }
  }

  /** The normalised power state is always lower case, and `'unknown'`
      exactly when both aliases are falsy. */
  lemma PowerStateIsLowerCase(d: seq<(string, V)>)
    requires PowerState(d).Ok?
    ensures Lower(PowerState(d).value) == PowerState(d).value
    ensures !Truthy(Get(d, "power_state")) && !Truthy(Get(d, "runtime.powerState")) ==>
              PowerState(d).value == "unknown"
  {
    var ps := Or(Get(d, "power_state"), Get(d, "runtime.powerState"));
    if Truthy(ps) {
      LowerIdempotent(ps.s);
    } else {
      UnknownIsLowerCase();
    }
  }

  /** A mapping VM normalises exactly when its power state, disk size and
      network count do, and then carries those three values. */
  lemma NormalizeVmParts(d: seq<(string, V)>)
    ensures NormalizeVm(Obj(d)).Ok? <==>
              PowerState(d).Ok? && DiskGb(d).Ok? && NetworkCount(d).Ok?
    ensures NormalizeVm(Obj(d)).Ok? ==>
              var r := NormalizeVm(Obj(d)).value;
              r.powerState == PowerState(d).value && r.diskGb == DiskGb(d).value &&
              r.networkCount == NetworkCount(d).value
  {
  }

  /** Severity and status come out lower case. */
  lemma AlarmLabelsAreLowerCase(parse: DateParser, alarm: V)
    requires NormalizeAlarm(parse, alarm).Ok?
    ensures var a := NormalizeAlarm(parse, alarm).value;
            Lower(a.severity) == a.severity && Lower(a.status) == a.status
  {
    var d := alarm.fields;
    LowerIdempotent(Or(Get(d, "severity"), GetOr(d, "alarm_severity", Str("unknown"))).s);
    LowerIdempotent(Or(Get(d, "status"), GetOr(d, "alarm_status", Str("unknown"))).s);
  }

  /** A mapping alarm fails to normalise only when the severity or status
      chain yields a non-string: the date parsing never raises. */
  lemma AlarmRaisesOnlyOnLabels(parse: DateParser, d: seq<(string, V)>)
    ensures NormalizeAlarm(parse, Obj(d)).Err? <==>
              !Or(Get(d, "severity"), GetOr(d, "alarm_severity", Str("unknown"))).Str? ||
              !Or(Get(d, "status"), GetOr(d, "alarm_status", Str("unknown"))).Str?
  {
  }

  /** Defaults of an alarm with none of the aliased keys. */
  lemma AlarmDefaults(parse: DateParser)
    ensures NormalizeAlarm(parse, Obj([])) ==
              Ok(AlarmRecord(Str("Unknown Alarm"), Str(""), "unknown", "unknown",
                             Str("Unknown VM"), NoTime, Bool(false)))
  {
    UnknownIsLowerCase();
  }

  lemma UnknownIsLowerCase()
    ensures Lower("unknown") == "unknown"
  {
    LowerOfLowerCase("unknown");
  }

  /** Defaults of a VM mapping with none of the aliased keys. */
  lemma VmDefaults()
    ensures NormalizeVm(Obj([])) ==
              Ok(VmRecord(Str("Unknown"), Null, "unknown", Null, Null, Null, Int(0),
                          Null, Null, Null, Null))
  {
  }

  /** The name is the first truthy of `name` and `vm_name`, else
      `guest_name`, else "Unknown". */
  lemma VmNameAliases(d: seq<(string, V)>)
    requires NormalizeVm(Obj(d)).Ok?
    ensures NormalizeVm(Obj(d)).value.name ==
              Or(Or(Get(d, "name"), Get(d, "vm_name")), GetOr(d, "guest_name", Str("Unknown")))
  {
  }

  /** A mapping entry without `name` is named after its (non-empty) key. */
  lemma EntryNamedAfterKey(key: string, fs: seq<(string, V)>)
    requires key != []
    requires !HasKey(fs, "name")
    requires NormalizeVm(Obj(SetDefault(fs, "name", Str(key)))).Ok?
    ensures NormalizeVm(Obj(SetDefault(fs, "name", Str(key)))).value.name == Str(key)
  {
    var d := SetDefault(fs, "name", Str(key));
    VmNameAliases(d);
    assert Get(d, "name") == Str(key);
  }

  /** The mapping elements of a top-level list, in order. */
  function DictElements(xs: seq<V>): (r: seq<V>)
    ensures forall x | x in r :: x.Obj?
    ensures |r| <= |xs|
  {
    if xs == [] then []
    else DictElements(xs[..|xs| - 1]) + if xs[|xs| - 1].Obj? then [xs[|xs| - 1]] else []
  }

  /** A top-level list is scanned as the list of its mapping elements:
      every other element is skipped without raising. */
  lemma {:induction false} ListShapeScansDicts(parse: DateParser, xs: seq<V>, acc: Extraction)
    ensures Fold(xs, acc, DirectItemStepFn(parse)) == Fold(DictElements(xs), acc, LeafStepFn(parse))
    decreases |xs|
  {
    if xs != [] {
      var n := |xs| - 1;
      ListShapeScansDicts(parse, xs[..n], acc);
      var tail := if xs[n].Obj? then [xs[n]] else [];
      DictElementsLast(xs);
      FoldAppend(DictElements(xs[..n]), tail, acc, LeafStepFn(parse));
      match Fold(xs[..n], acc, DirectItemStepFn(parse))
      case Err(_) =>
      case Ok(s) =>
        if tail != [] {
          FoldSingle(xs[n], s, LeafStepFn(parse));
        }
    }
  }

  /** A `results` list of mappings gives what the same list at top level
      gives. */
  lemma ResultsListIsTopLevelList(parse: DateParser, xs: seq<V>)
    requires forall x | x in xs :: x.Obj?
    ensures Extracted(parse, Obj([("results", List(xs))])) == Extracted(parse, List(xs))
  {
    var d := [("results", List(xs))];
    assert d[0].0 == "results" && !HasKey(d, "plays");
    assert Get(d, "results") == List(xs);
    ListShapeScansDicts(parse, xs, Empty);
    assert DictElements(xs) == xs by {
      assert forall i | 0 <= i < |xs| :: xs[i] in xs;
      DictElementsOfDicts(xs);
    }
  }

  lemma {:induction false} DictElementsOfDicts(xs: seq<V>)
    requires forall i | 0 <= i < |xs| :: xs[i].Obj?
    ensures DictElements(xs) == xs
    decreases |xs|
  {
    if xs != [] {
      var n := |xs| - 1;
      var front := xs[..n];
      assert forall i | 0 <= i < |front| :: front[i] == xs[i];
      DictElementsOfDicts(front);
      DictElementsLast(xs);
      assert front + [xs[n]] == xs;
    }
  }

  lemma DictElementsLast(xs: seq<V>)
    requires xs != []
    ensures DictElements(xs) == DictElements(xs[..|xs| - 1]) + if xs[|xs| - 1].Obj? then [xs[|xs| - 1]] else []
  {
  }

  /** The ordered shape dispatch: `plays`, then `results`, then
      `ansible_facts`, then the mapping itself; a list is scanned element
      by element; any other value gives nothing. */
  lemma ShapeDispatch(parse: DateParser, data: V)
    ensures data.Obj? && HasKey(data.fields, "plays") ==>
              Extracted(parse, data) == PlaybookShape(parse, Get(data.fields, "plays"))
    ensures data.Obj? && !HasKey(data.fields, "plays") && HasKey(data.fields, "results") ==>
              Extracted(parse, data) == ResultsShape(parse, Get(data.fields, "results"))
    ensures data.Obj? && !HasKey(data.fields, "plays") && !HasKey(data.fields, "results") &&
            HasKey(data.fields, "ansible_facts") ==>
              Extracted(parse, data) == LeafStep(parse, Empty, Get(data.fields, "ansible_facts"))
    ensures data.Obj? && !HasKey(data.fields, "plays") && !HasKey(data.fields, "results") &&
            !HasKey(data.fields, "ansible_facts") ==>
              Extracted(parse, data) == LeafStep(parse, Empty, data)
    ensures data.List? ==>
              Extracted(parse, data) == Fold(DictElements(data.items), Empty, LeafStepFn(parse))
    ensures !data.Obj? && !data.List? ==> Extracted(parse, data) == Ok(Empty)
  {
    if data.List? {
      ListShapeScansDicts(parse, data.items, Empty);
    }
  }

  /** A mapping leaf whose first VM location holds a list, and which also
      has an indicator key, yields the container's records and then the
      leaf itself as one more VM: duplicates are kept. */
  lemma LeafAlsoCountsAsVm(d: seq<(string, V)>, i: nat, xs: seq<V>, acc: seq<VmRecord>)
    requires i < |VmLocations| && HasKey(d, VmLocations[i]) && Get(d, VmLocations[i]) == List(xs)
    requires forall j | 0 <= j < i :: !HasKey(d, VmLocations[j])
    requires exists k | k in VmIndicators :: HasKey(d, k)
    requires forall k | 0 <= k < |xs| :: NormalizeVm(xs[k]).Ok?
    requires NormalizeVm(Obj(d)).Ok?
    ensures VmScan(Obj(d), acc).Ok?
    ensures var r := VmScan(Obj(d), acc).value;
            |r| == |acc| + |xs| + 1 && r[..|acc|] == acc &&
            (forall k | 0 <= k < |xs| :: r[|acc| + k] == NormalizeVm(xs[k]).value) &&
            r[|r| - 1] == NormalizeVm(Obj(d)).value
  {
    VmFirstLocationWins(d, VmLocations, i, acc);
    VmListRecords(xs, acc);
    LooksLikeVmIffIndicator(d, VmIndicators);
    var c := FromVmContainer(List(xs), acc).value;
    assert VmScan(Obj(d), acc) == Ok(c + [NormalizeVm(Obj(d)).value]);
    assert (c + [NormalizeVm(Obj(d)).value])[..|acc|] == c[..|acc|];
  }

  /** The sizes of a list of good disks added up, last disk last: the
      reference for `sum`. */
  function SizeSum(xs: seq<V>): real
    requires forall k | 0 <= k < |xs| :: GoodDisk(xs[k])
    decreases |xs|
  {
    if xs == [] then 0.0 else SizeSum(xs[..|xs| - 1]) + Amount(xs[|xs| - 1])
  }

  /** Some mapping among `xs` has a float size. */
  predicate HasFloatSize(xs: seq<V>) {
    exists k | 0 <= k < |xs| :: xs[k].Obj? && SizeKb(xs[k]).Real?
  }

  lemma HasFloatSizeStep(xs: seq<V>)
    requires xs != []
    ensures HasFloatSize(xs) <==>
              HasFloatSize(xs[..|xs| - 1]) || (xs[|xs| - 1].Obj? && SizeKb(xs[|xs| - 1]).Real?)
  {
    var front := xs[..|xs| - 1];
    assert forall k | 0 <= k < |front| :: front[k] == xs[k];
    if HasFloatSize(xs) && !(xs[|xs| - 1].Obj? && SizeKb(xs[|xs| - 1]).Real?) {
      var k :| 0 <= k < |xs| && xs[k].Obj? && SizeKb(xs[k]).Real?;
      assert front[k] == xs[k];
    }
  }

  /** The fold of `AddDiskSize` from `t` succeeds exactly when every disk
      is good, and then adds their sizes to `t` and is a float when a
      float was added. */
  lemma {:induction false} SumOfGoodDisks(xs: seq<V>, t: Total)
    ensures Fold(xs, t, AddDiskSize).Ok? <==> forall k | 0 <= k < |xs| :: GoodDisk(xs[k])
    ensures Fold(xs, t, AddDiskSize).Ok? ==>
              Fold(xs, t, AddDiskSize).value == Total(t.value + SizeSum(xs), t.isFloat || HasFloatSize(xs))
    decreases |xs|
  {
    if xs != [] {
      var front := xs[..|xs| - 1];
      SumOfGoodDisks(front, t);
      assert forall k | 0 <= k < |front| :: front[k] == xs[k];
      HasFloatSizeStep(xs);
    }
  }

  /** Otherwise the fold raises at the first bad disk, naming the type
      the total had by then. */
  lemma {:induction false} SumStopsAtBadDisk(xs: seq<V>, t: Total)
    requires Fold(xs, t, AddDiskSize).Err?
    ensures exists k | 0 <= k < |xs| :: !GoodDisk(xs[k]) && (forall j | 0 <= j < k :: GoodDisk(xs[j])) &&
              Fold(xs, t, AddDiskSize).error == DiskError(t.isFloat || HasFloatSize(xs[..k]), xs[k])
    decreases |xs|
  {
    var n := |xs| - 1;
    var front := xs[..n];
    assert forall k | 0 <= k < |front| :: front[k] == xs[k];
    if Fold(front, t, AddDiskSize).Err? {
      SumStopsAtBadDisk(front, t);
      var k :| 0 <= k < |front| && !GoodDisk(front[k]) && (forall j | 0 <= j < k :: GoodDisk(front[j])) &&
               Fold(front, t, AddDiskSize).error == DiskError(t.isFloat || HasFloatSize(front[..k]), front[k]);
      assert front[..k] == xs[..k];
    } else {
      SumOfGoodDisks(front, t);
      assert xs[..n] == front;
    }
  }

  /** `disk_gb` for every record: a truthy `disk_gb`/`disk_size_gb` (or a
      missing or non-list `disk`) is kept as it is; otherwise the `disk`
      list is summed, giving its size in GiB when positive and None when
      not, and a disk that is not a mapping or has a size that is not a
      number raises, at the first such disk. */
  lemma DiskGbFacts(d: seq<(string, V)>)
    ensures var direct := Or(Get(d, "disk_gb"), Get(d, "disk_size_gb"));
      (Truthy(direct) || !HasKey(d, "disk") || !Get(d, "disk").List?) ==> DiskGb(d) == Ok(direct)
    ensures var direct := Or(Get(d, "disk_gb"), Get(d, "disk_size_gb"));
      !Truthy(direct) && HasKey(d, "disk") && Get(d, "disk").List? ==>
        var xs := Get(d, "disk").items;
        (DiskGb(d).Ok? <==> forall k | 0 <= k < |xs| :: GoodDisk(xs[k])) &&
        (DiskGb(d).Ok? ==> DiskGb(d).value == if SizeSum(xs) > 0.0 then Real(SizeSum(xs) / 1048576.0) else Null) &&
        (DiskGb(d).Err? ==>
           exists k | 0 <= k < |xs| :: !GoodDisk(xs[k]) && (forall j | 0 <= j < k :: GoodDisk(xs[j])) &&
             DiskGb(d).error == DiskError(HasFloatSize(xs[..k]), xs[k]))
  {
    var direct := Or(Get(d, "disk_gb"), Get(d, "disk_size_gb"));
    if !Truthy(direct) && HasKey(d, "disk") && Get(d, "disk").List? {
      SumOfGoodDisks(Get(d, "disk").items, Total(0.0, false));
      if DiskGb(d).Err? {
        SumStopsAtBadDisk(Get(d, "disk").items, Total(0.0, false));
      }
    }
  }

  /** Sizes of sub-disks are summed in KiB and reported in GiB. */
  lemma DiskSizesSummed()
    ensures DiskGb([("disk", List([Obj([("size_kb", Int(1048576))]), Obj([("size_kb", Int(3145728))])]))])
            == Ok(Real(4.0))
  {
    var disks := [Obj([("size_kb", Int(1048576))]), Obj([("size_kb", Int(3145728))])];
    assert disks[..1] == [disks[0]] && disks[..1][..0] == [];
    assert Fold(disks, Total(0.0, false), AddDiskSize) == Ok(Total(4194304.0, false));
  }

  /** After a float size, a string size is reported against a float
      total. */
  lemma FloatTotalNamedInError()
    ensures DiskGb([("disk", List([Obj([("size_kb", Real(1.5))]), Obj([("size_kb", Str("x"))])]))])
            == Err(TypeError("unsupported operand type(s) for +: 'float' and 'str'"))
  {
    var disks := [Obj([("size_kb", Real(1.5))]), Obj([("size_kb", Str("x"))])];
    assert disks[..1] == [disks[0]] && disks[..1][..0] == [];
    assert Fold(disks[..1], Total(0.0, false), AddDiskSize) == Ok(Total(1.5, true));
    assert SizeKb(disks[1]) == Str("x");
    assert !GoodDisk(disks[1]);
    assert DiskError(true, disks[1]) == TypeError("unsupported operand type(s) for +: 'float' and 'str'");
  }

  /** The network count falls back to the length of `networks`, and to 0
      when that key is missing too. */
  lemma NetworkCountFallback(d: seq<(string, V)>)
    requires !Truthy(Get(d, "network_count"))
    ensures !HasKey(d, "networks") ==> NetworkCount(d) == Ok(Int(0))
    ensures Get(d, "networks").List? ==> NetworkCount(d) == Ok(Int(|Get(d, "networks").items|))
  {
  }

  // ---------------------------------------------------------------------
  // The walk as the Python performs it
  // ---------------------------------------------------------------------

  /** Appends the records of one VM container to `vms0`. For a mapping,
      the entry's `name` is defaulted to its key before normalising, as the
      Python does by writing into the entry. */
  method AppendVmContainer(c: V, vms0: seq<VmRecord>) returns (r: Result<seq<VmRecord>>)
    ensures r == FromVmContainer(c, vms0)
  {
    var vms := vms0;
    if c.List? {
      var xs := c.items;
      var i := 0;
      while i < |xs|
        invariant 0 <= i <= |xs|
        invariant Fold(xs[..i], vms0, AppendStepFn(NormalizeVm)) == Ok(vms)
      {
        FoldStep(xs, i, vms0, AppendStepFn(NormalizeVm));
        var vm := NormalizeVm(xs[i]);
        if vm.Err? {
          FoldErrPrefix(xs, i + 1, vms0, AppendStepFn(NormalizeVm));
          return Err(vm.error);
        }
        vms := vms + [vm.value];
        i := i + 1;
      }
      assert xs[..i] == xs;
    } else if c.Obj? {
      var fs := c.fields;
      var i := 0;
      while i < |fs|
        invariant 0 <= i <= |fs|
        invariant Fold(fs[..i], vms0, VmEntryStep) == Ok(vms)
      {
        FoldStep(fs, i, vms0, VmEntryStep);
        var (key, info) := fs[i];
        if info.Obj? {
          var named := Obj(SetDefault(info.fields, "name", Str(key)));
          var vm := NormalizeVm(named);
          if vm.Err? {
            FoldErrPrefix(fs, i + 1, vms0, VmEntryStep);
            return Err(vm.error);
          }
          vms := vms + [vm.value];
        }
        i := i + 1;
      }
      assert fs[..i] == fs;
    }
    r := Ok(vms);
  }

  /** The location loop of `_extract_vm_data_from_result`: the first
      location present is read, and the loop stops there. */
  method ScanVmLocations(data: V, vms0: seq<VmRecord>) returns (r: Result<seq<VmRecord>>)
    ensures r == VmContainerScan(data, VmLocations, vms0)
  {
    var i := 0;
    while i < |VmLocations|
      invariant 0 <= i <= |VmLocations|
      invariant VmContainerScan(data, VmLocations[i..], vms0) == VmContainerScan(data, VmLocations, vms0)
    {
      var location := VmLocations[i];
      var present := In(location, data);
      if present.Err? {
        return Err(present.error);
      }
      if present.value {
        var c := Index(data, location);
        if c.Err? {
          return Err(c.error);
        }
        r := AppendVmContainer(c.value, vms0);
        return;
      }
      assert VmLocations[i..][1..] == VmLocations[i + 1..];
      i := i + 1;
    }
    r := Ok(vms0);
  }

  /** `_extract_vm_data_from_result`. */
  method ExtractVmData(data: V, vms0: seq<VmRecord>) returns (r: Result<seq<VmRecord>>)
    ensures r == VmScan(data, vms0)
  {
    var scanned := ScanVmLocations(data, vms0);
    if scanned.Err? {
      return scanned;
    }
    var vms := scanned.value;
    var looks := LooksLikeVm(data);
    if looks.Err? {
      return Err(looks.error);
    }
    if looks.value {
      var vm := NormalizeVm(data);
      if vm.Err? {
        return Err(vm.error);
      }
      vms := vms + [vm.value];
    }
    r := Ok(vms);
  }

  /** Appends the records of one alarm container to `alarms0`. */
  method AppendAlarmContainer(parse: DateParser, c: V, alarms0: seq<AlarmRecord>) returns (r: Result<seq<AlarmRecord>>)
    ensures r == FromAlarmContainer(parse, c, alarms0)
  {
    var alarms := alarms0;
    if c.List? {
      r := AppendAlarmList(parse, c.items, alarms0);
      return;
    } else if c.Obj? {
      var fs := c.fields;
      var i := 0;
      while i < |fs|
        invariant 0 <= i <= |fs|
        invariant Fold(fs[..i], alarms0, AlarmEntryStepFn(parse)) == Ok(alarms)
      {
        FoldStep(fs, i, alarms0, AlarmEntryStepFn(parse));
        var (key, info) := fs[i];
        if info.Obj? {
          var alarm := NormalizeAlarm(parse, Obj(SetDefault(info.fields, "name", Str(key))));
          if alarm.Err? {
            FoldErrPrefix(fs, i + 1, alarms0, AlarmEntryStepFn(parse));
            return Err(alarm.error);
          }
          alarms := alarms + [alarm.value];
        } else if info.List? {
          var more := AppendAlarmList(parse, info.items, alarms);
          if more.Err? {
            FoldErrPrefix(fs, i + 1, alarms0, AlarmEntryStepFn(parse));
            return more;
          }
          alarms := more.value;
        }
        i := i + 1;
      }
      assert fs[..i] == fs;
    }
    r := Ok(alarms);
  }

  /** `for alarm in alarm_data: result['alarms'].append(...)`. */
  method AppendAlarmList(parse: DateParser, xs: seq<V>, alarms0: seq<AlarmRecord>) returns (r: Result<seq<AlarmRecord>>)
    ensures r == Fold(xs, alarms0, AppendStepFn(NormalizeAlarmFn(parse)))
  {
    var alarms := alarms0;
    var i := 0;
    while i < |xs|
      invariant 0 <= i <= |xs|
      invariant Fold(xs[..i], alarms0, AppendStepFn(NormalizeAlarmFn(parse))) == Ok(alarms)
    {
      FoldStep(xs, i, alarms0, AppendStepFn(NormalizeAlarmFn(parse)));
      var alarm := NormalizeAlarm(parse, xs[i]);
      if alarm.Err? {
        FoldErrPrefix(xs, i + 1, alarms0, AppendStepFn(NormalizeAlarmFn(parse)));
        return Err(alarm.error);
      }
      alarms := alarms + [alarm.value];
      i := i + 1;
    }
    assert xs[..i] == xs;
    r := Ok(alarms);
  }

  /** `_extract_alarm_data_from_result`. */
  method ExtractAlarmData(parse: DateParser, data: V, alarms0: seq<AlarmRecord>) returns (r: Result<seq<AlarmRecord>>)
    ensures r == AlarmScan(parse, data, AlarmLocations, alarms0)
  {
    var i := 0;
    while i < |AlarmLocations|
      invariant 0 <= i <= |AlarmLocations|
      invariant AlarmScan(parse, data, AlarmLocations[i..], alarms0) == AlarmScan(parse, data, AlarmLocations, alarms0)
    {
      var location := AlarmLocations[i];
      var present := In(location, data);
      if present.Err? {
        return Err(present.error);
      }
      if present.value {
        var c := Index(data, location);
        if c.Err? {
          return Err(c.error);
        }
        r := AppendAlarmContainer(parse, c.value, alarms0);
        return;
      }
      assert AlarmLocations[i..][1..] == AlarmLocations[i + 1..];
      i := i + 1;
    }
    r := Ok(alarms0);
  }

  /** Both scans on one leaf, VM first. */
  method ScanLeaf(parse: DateParser, acc: Extraction, leaf: V) returns (r: Result<Extraction>)
    ensures r == LeafStep(parse, acc, leaf)
  {
    var vms := ExtractVmData(leaf, acc.vms);
    if vms.Err? {
      return Err(vms.error);
    }
    var alarms := ExtractAlarmData(parse, leaf, acc.alarms);
    if alarms.Err? {
      return Err(alarms.error);
    }
    r := Ok(Extraction(vms.value, alarms.value));
  }

  /** `_parse_playbook_structure`: plays, then tasks, then hosts. */
  method ParsePlaybook(parse: DateParser, plays: V, acc0: Extraction) returns (r: Result<Extraction>)
    ensures plays.List? ==> r == Fold(plays.items, acc0, PlayStepFn(parse))
    ensures r.Err? || plays.List? || plays.Obj? || plays.Str?
    ensures acc0 == Empty ==> r == PlaybookShape(parse, plays)
  {
    var ps := Iter(plays);
    if ps.Err? {
      return Err(ps.error);
    }
    var xs := ps.value;
    var acc := acc0;
    var i := 0;
    while i < |xs|
      invariant 0 <= i <= |xs|
      invariant Fold(xs[..i], acc0, PlayStepFn(parse)) == Ok(acc)
    {
      FoldStep(xs, i, acc0, PlayStepFn(parse));
      var play := xs[i];
      if !play.Obj? {
        FoldErrPrefix(xs, i + 1, acc0, PlayStepFn(parse));
        return Err(NoAttribute(play, "get"));
      }
      var ts := Iter(GetOr(play.fields, "tasks", List([])));
      if ts.Err? {
        FoldErrPrefix(xs, i + 1, acc0, PlayStepFn(parse));
        return Err(ts.error);
      }
      var tasks := ts.value;
      var atPlay := acc;
      var j := 0;
      while j < |tasks|
        invariant 0 <= j <= |tasks|
        invariant Fold(tasks[..j], atPlay, TaskStepFn(parse)) == Ok(acc)
      {
        FoldStep(tasks, j, atPlay, TaskStepFn(parse));
        var task := tasks[j];
        if !task.Obj? {
          FoldErrPrefix(tasks, j + 1, atPlay, TaskStepFn(parse));
          FoldErrPrefix(xs, i + 1, acc0, PlayStepFn(parse));
          return Err(NoAttribute(task, "get"));
        }
        var hosts := GetOr(task.fields, "hosts", Obj([]));
        if !hosts.Obj? {
          FoldErrPrefix(tasks, j + 1, atPlay, TaskStepFn(parse));
          FoldErrPrefix(xs, i + 1, acc0, PlayStepFn(parse));
          return Err(NoAttribute(hosts, "items"));
        }
        var hs := hosts.fields;
        var atTask := acc;
        var k := 0;
        while k < |hs|
          invariant 0 <= k <= |hs|
          invariant Fold(hs[..k], atTask, HostStepFn(parse)) == Ok(acc)
        {
          FoldStep(hs, k, atTask, HostStepFn(parse));
          var scanned := ScanLeaf(parse, acc, hs[k].1);
          if scanned.Err? {
            FoldErrPrefix(hs, k + 1, atTask, HostStepFn(parse));
            FoldErrPrefix(tasks, j + 1, atPlay, TaskStepFn(parse));
            FoldErrPrefix(xs, i + 1, acc0, PlayStepFn(parse));
            return scanned;
          }
          acc := scanned.value;
          k := k + 1;
        }
        assert hs[..k] == hs;
        j := j + 1;
      }
      assert tasks[..j] == tasks;
      i := i + 1;
    }
    assert xs[..i] == xs;
    r := Ok(acc);
  }

  /** A loop of `ScanLeaf` over a list, skipping non-mappings when
      `dictsOnly` holds (the top-level list shape), scanning every element
      otherwise (the `results` list shape). */
  method ScanLeaves(parse: DateParser, xs: seq<V>, dictsOnly: bool) returns (r: Result<Extraction>)
    ensures dictsOnly ==> r == Fold(xs, Empty, DirectItemStepFn(parse))
    ensures !dictsOnly ==> r == Fold(xs, Empty, LeafStepFn(parse))
  {
    var step := if dictsOnly then DirectItemStepFn(parse) else LeafStepFn(parse);
    var acc := Empty;
    var i := 0;
    while i < |xs|
      invariant 0 <= i <= |xs|
      invariant Fold(xs[..i], Empty, step) == Ok(acc)
    {
      FoldStep(xs, i, Empty, step);
      if !dictsOnly || xs[i].Obj? {
        var scanned := ScanLeaf(parse, acc, xs[i]);
        if scanned.Err? {
          FoldErrPrefix(xs, i + 1, Empty, step);
          return scanned;
        }
        acc := scanned.value;
      }
      i := i + 1;
    }
    assert xs[..i] == xs;
    r := Ok(acc);
  }

  /** `_extract_vcenter_data`: dispatch on the shape, then record the
      totals. */
  method ExtractVcenterData(parse: DateParser, data: V) returns (r: Result<ParsedData>)
    ensures r.Ok? <==> Extracted(parse, data).Ok?
    ensures r.Ok? ==> r.value == WithTotals(Extracted(parse, data).value)
    ensures r.Err? ==> r.error == Extracted(parse, data).error
  {
    var e: Result<Extraction>;
    if data.Obj? {
      var d := data.fields;
      if HasKey(d, "plays") {
        e := ParsePlaybook(parse, Get(d, "plays"), Empty);
      } else if HasKey(d, "results") {
        var results := Get(d, "results");
        if results.List? {
          e := ScanLeaves(parse, results.items, false);
        } else {
          e := ScanLeaf(parse, Empty, results);
        }
      } else if HasKey(d, "ansible_facts") {
        e := ScanLeaf(parse, Empty, Get(d, "ansible_facts"));
      } else {
        e := ScanLeaf(parse, Empty, data);
      }
    } else if data.List? {
      e := ScanLeaves(parse, data.items, true);
    } else {
      e := Ok(Empty);
    }
    if e.Err? {
      return Err(e.error);
    }
    r := Ok(WithTotals(e.value));
  }
}
