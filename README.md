# vCenter Monitor core, modelled in Dafny

vCenter Monitor turns Ansible inventory dumps of VMware vCenter (JSON or
YAML playbook output) into per-client exports for Power BI. A file that
lands in the watch directory becomes a `pending` processing job. The
scheduler claims pending jobs in small batches. It parses each file into
VM and alarm records, cleans them, writes CSV, workbook and JSON exports
plus a summary, then moves the input file aside. A retention sweep later
deletes old finished jobs together with their exports. A small web API
lets an operator queue a file by hand, retry a failed job, or validate a
file without processing it.

This project models that core and proves properties of the model:

- `base.dfy` (`Base`): the error/result type, the `os.path` string helpers the core relies on (`basename`, `splitext`, `join`, `split`, ASCII lower-casing), and a generic left fold over a sequence that stops at the first error.
- `value.dfy` (`Value`): a decoded JSON/YAML document as a tagged value whose objects keep key order, plus Python truthiness, `or`, `dict.get`, `in`, `len` and iteration.
- `ansible_parser.dfy` (`AnsibleParser`): the extractor. The extension check of `parse_file`, the shape dispatch, the playbook, results, facts and direct walks, the VM and alarm container probes, and the two record normalisers. Every exception a normaliser can raise is an `Err` that aborts the whole file. Each walk is a method with loops, proved equal to a fold-based specification function.
- `counting.dfy` (`Counting`): `value_counts` (counts per distinct value, sorted by count), `nunique` and `head`.
- `config.dfy` (`Config`): the configuration defaults the core reads.
- `processor.dfy` (`DataProcessor`): per-row defaults and numeric coercion, the derived metrics, resource buckets, the severity and priority tables, the VM and alarm statistics, the naming plan of the exports (environment partition, three artifacts per group, the summary last) and the column-width rule.
- `jobs.dfy` (`Jobs`): the `ProcessingJob` row, the job table as a map from id to row with the next id to assign, and a `JobStore` class whose methods update that table in place.
- `scheduler.dfy` (`Scheduler`): processing one job, a pass over a batch of pending jobs, relocation of the processed file, and the retention sweep.
- `watcher.dfy` (`FileWatcher`): the environment classifier, the extension and size filters, the watcher's enqueue guard (as written, and as intended), the startup scan, and the choice of path for create and move events.
- `api.dfy` (`Api`): `retry_job`, the enqueue guard of `process_file`, and the check order of `validate_file`.

What the outside world decides is passed in as a parameter:

- `Numerics`: numeric parsing, `round(…, 2)` and date parsing;
- `DateParser`: the alarm time parser, which reports whether the time it read carries a time zone;
- a `World`, holding:
  - the clock reading;
  - the timestamp string;
  - the outcome of `parse_file` for each path;
  - for each input path, the exception a file writer raises while exporting it, if any: the position in the output plan of the write that raises, and whether that file is left behind;
  - the paths on which a move or a delete fails;
- the set of existing paths;
- the file descriptors open in the web server, which `os.path.exists` consults for an integer path;
- the file sizes.

`Scheduler.ParserWorld` ties the scheduler's parse outcome to `AnsibleParser.ParseFile` applied to a decoder's output.

Where the code and its design notes disagree, the model follows the code:

- Resource buckets are right-closed (`pd.cut` defaults). A score of exactly 10 is `Low`, and a score of 0 or less gets no category.
- The classifier's segment heuristics run for every path of three or more parts, even after a mapping pattern matched, and they override that pattern's values.

## Model

| member | source | states |
|---|---|---|
| Base.Lower | services/ansible_parser.py:19 | lower-casing keeps the length and maps each character through the ASCII case map |
| Base.LowerIdempotent | services/data_processor.py:181 | lower-casing twice is lower-casing once |
| Base.Basename | services/file_watcher.py:35 | the base name holds no separator and is a suffix of the path |
| Base.Extension | services/ansible_parser.py:19 | a non-empty extension starts with a dot, holds no separator and is a suffix of the path |
| Base.BasenameOfName | services/file_watcher.py:35 | the base name of `dir/name` is `name` when `name` has no separator |
| Base.ExtensionOfName | services/file_watcher.py:36 | the extension of `dir/stem.ext` is `.ext` for a stem with no dot or separator |
| Base.Join | services/scheduler.py:92 | a joined path ends with the joined name |
| Base.Split | services/file_watcher.py:97 | splitting yields at least one part, and no part holds the separator |
| Base.AppendAll | services/ansible_parser.py:118-119 | appending normalised records succeeds iff every element normalises; it then extends the accumulator by exactly one record per element, in order; on failure the error is that of the first element that fails |
| Value.Or | services/ansible_parser.py:169 | Python `a or b`: `a` when truthy, else `b` |
| Value.Lookup | services/ansible_parser.py:115-116 | a key is found iff it is present, and the value found is bound to that key |
| Value.GetOr | services/ansible_parser.py:78 | `dict.get` with a default returns the default for an absent key |
| Value.SetDefault | services/ansible_parser.py:124 | afterwards the key is present; an existing binding is kept, an absent key gets the default |
| Value.LookupAppend | services/ansible_parser.py:124 | a key appended to an object without it is then found with the appended value |
| Value.In | services/ansible_parser.py:115 | `key in data` is a key test on objects and raises on anything that is not an object, list or string |
| Value.Iter | services/ansible_parser.py:88 | iteration over a list yields its items and raises on scalars |
| Value.Len | services/ansible_parser.py:191 | `len` of a list is its length and raises on scalars |
| AnsibleParser.ParseFile | services/ansible_parser.py:16-34 | an unsupported lower-cased extension raises `Unsupported file format: <ext>`; a decoding error is re-raised unchanged; a successful parse reports totals equal to the list lengths |
| AnsibleParser.WithTotals | services/ansible_parser.py:67-68 | the reported totals equal the lengths of the VM and alarm lists |
| AnsibleParser.ExtractVcenterData | services/ansible_parser.py:36-74 | the extractor method succeeds iff the shape specification does, returns its lists with the totals, and otherwise raises the same error |
| AnsibleParser.ShapeDispatch | services/ansible_parser.py:50-65 | `plays` takes precedence over `results`, which takes precedence over `ansible_facts`, and otherwise the direct scan runs; a list scans each object element; any other value yields nothing |
| AnsibleParser.ResultsListIsTopLevelList | services/ansible_parser.py:84-90 | a `results` list of objects extracts the same records as that list at top level |
| AnsibleParser.ListShapeScansDicts | services/ansible_parser.py:61-65 | scanning a top-level list equals scanning its object elements only, in order |
| AnsibleParser.DictElements | services/ansible_parser.py:63-64 | the elements kept are objects and are at most the list's length |
| AnsibleParser.DictElementsOfDicts | services/ansible_parser.py:63-64 | a list of objects keeps every element |
| AnsibleParser.ParsePlaybook | services/ansible_parser.py:76-82 | the plays, tasks and hosts loops compute the playbook fold; a non-iterable `plays` raises; from an empty result the method equals the playbook specification |
| AnsibleParser.ScanLeaves | services/ansible_parser.py:61-65 | the loop over list items equals the fold of the direct scan (object items only) or of the leaf scan (every item) |
| AnsibleParser.ScanLeaf | services/ansible_parser.py:101-104 | one leaf runs the VM scan and then the alarm scan, as the specification's leaf step does |
| AnsibleParser.ScanVmLocations | services/ansible_parser.py:109-126 | the location loop equals probing the ordered container keys and using the first one present |
| AnsibleParser.ExtractVmData | services/ansible_parser.py:106-130 | the method equals the VM scan: the container records, then the leaf itself when it looks like a VM |
| AnsibleParser.AppendVmContainer | services/ansible_parser.py:116-125 | a list container normalises every element; an object container normalises each object-valued entry, named after its key by default |
| AnsibleParser.VmFirstLocationWins | services/ansible_parser.py:114-126 | only the first container key present is used; with none present the scan adds nothing |
| AnsibleParser.VmListRecords | services/ansible_parser.py:117-119 | a list container succeeds iff every element normalises, and then appends exactly one record per element, in order |
| AnsibleParser.DictVmInputs | services/ansible_parser.py:122-125 | an object container contributes at most one record per entry |
| AnsibleParser.VmDictIsList | services/ansible_parser.py:120-125 | an object container is the list of its object-valued entries, each with `name` defaulting to the entry key |
| AnsibleParser.EntryNamedAfterKey | services/ansible_parser.py:124 | an entry without a `name` is normalised under its key |
| AnsibleParser.LeafAlsoCountsAsVm | services/ansible_parser.py:128-130 | a leaf with an indicator key and a VM list yields the list's records followed by the leaf's own record |
| AnsibleParser.LooksLikeVmIffIndicator | services/ansible_parser.py:156-162 | a leaf looks like a VM iff it has one of the indicator keys |
| AnsibleParser.ExtractAlarmData | services/ansible_parser.py:132-154 | the method equals the alarm scan over the ordered alarm container keys |
| AnsibleParser.AppendAlarmContainer | services/ansible_parser.py:143-153 | a list container normalises every element; an object container normalises object entries (named after the key) and every element of list entries |
| AnsibleParser.AppendAlarmList | services/ansible_parser.py:143-145 | the loop appends one normalised alarm per element, stopping at the first error |
| AnsibleParser.AlarmFirstLocationWins | services/ansible_parser.py:140-154 | only the first alarm container key present is used |
| AnsibleParser.AlarmListRecords | services/ansible_parser.py:143-145 | an alarm list succeeds iff every element normalises, and then appends exactly one record per element, in order |
| AnsibleParser.AlarmDictIsList | services/ansible_parser.py:146-153 | an object container is the concatenation of its object entries (named after their keys) and the elements of its list entries |
| AnsibleParser.NormalizeVmParts | services/ansible_parser.py:164-205 | normalising a VM object fails iff its power state, disk size or network count raises, and the record carries exactly those three values |
| AnsibleParser.VmNameAliases | services/ansible_parser.py:169 | the name is the first truthy of `name` and `vm_name`, else `guest_name`, defaulting to `Unknown` |
| AnsibleParser.PowerStateIsLowerCase | services/ansible_parser.py:173-174 | the power state is lower-case, and `unknown` when both aliases are falsy |
| AnsibleParser.VmDefaults | services/ansible_parser.py:164-205 | an empty object normalises to name `Unknown`, power state `unknown`, network count 0 and every other field None |
| AnsibleParser.DiskSizesSummed | services/ansible_parser.py:181-188 | one instance of AnsibleParser.DiskGbFacts: disks of 1 and 3 GiB in `size_kb` give a disk size of 4.0 GB |
| AnsibleParser.NetworkCountFallback | services/ansible_parser.py:191 | a falsy `network_count` falls back to the length of `networks`, and to 0 when that key is absent |
| AnsibleParser.AlarmLabelsAreLowerCase | services/ansible_parser.py:216-220 | a normalised alarm's severity and status are lower-case |
| AnsibleParser.AlarmRaisesOnlyOnLabels | services/ansible_parser.py:207-247 | normalising an alarm object fails iff the chosen severity or status is not a string |
| AnsibleParser.AlarmDefaults | services/ansible_parser.py:207-247 | an empty object normalises to `Unknown Alarm`, an empty description, severity and status `unknown`, VM `Unknown VM`, no time and not acknowledged |
| AnsibleParser.NormalizeVm | services/ansible_parser.py:164-205 | `_normalize_vm_data`: a non-mapping raises on `get`; each field is the first truthy alias with its default, and the power state, disk size and network count come from their own helpers (definition; stated by AnsibleParser.NormalizeVmParts, AnsibleParser.VmNameAliases, AnsibleParser.VmDefaults) |
| AnsibleParser.PowerState | services/ansible_parser.py:173-174 | the first truthy of `power_state` and `runtime.powerState`, lower-cased, else `unknown`; a truthy non-string raises on `lower` (definition; stated by AnsibleParser.PowerStateIsLowerCase) |
| AnsibleParser.DiskGb | services/ansible_parser.py:180-188 | the truthy `disk_gb`/`disk_size_gb`, else the summed `size_kb` of a `disk` list in GiB (definition; stated by AnsibleParser.DiskGbFacts) |
| AnsibleParser.DiskGbFacts | services/ansible_parser.py:180-188 | a truthy `disk_gb`/`disk_size_gb`, or a missing or non-list `disk`, is kept as it is; otherwise the size succeeds iff every disk is a mapping with a numeric `size_kb`, and is then the sum in GiB when positive and None otherwise; a failure is the error of the first bad disk |
| AnsibleParser.SumOfGoodDisks | services/ansible_parser.py:186 | the sum succeeds iff every disk is a mapping with a numeric size; the total is then the start plus the sizes' sum, and it is a float once any size is a float |
| AnsibleParser.SumStopsAtBadDisk | services/ansible_parser.py:186 | a failing sum stops at the first bad disk: a non-mapping raises on `get`, a bad size raises the `+` TypeError naming the running total's type (`float` once a float was added) and the size's type |
| AnsibleParser.FloatTotalNamedInError | services/ansible_parser.py:186 | the sizes 1.5 and then `"x"` raise `unsupported operand type(s) for +: 'float' and 'str'` |
| AnsibleParser.NetworkCount | services/ansible_parser.py:191 | a truthy `network_count` as it is, else `len` of `networks` (empty when absent), raising for a scalar (definition; stated by AnsibleParser.NetworkCountFallback) |
| AnsibleParser.NormalizeAlarm | services/ansible_parser.py:207-247 | `_normalize_alarm_data`: a non-mapping raises on `get`; severity and status are lower-cased and raise when not strings; the other fields are the first truthy alias with its default (definition; stated by AnsibleParser.AlarmRaisesOnlyOnLabels, AnsibleParser.AlarmLabelsAreLowerCase, AnsibleParser.AlarmDefaults) |
| AnsibleParser.TriggeredTime | services/ansible_parser.py:230-242 | a falsy time is none; a string goes through the date parser, keeping whether it carries a zone, and a failed parse is none; a truthy non-string is kept as it is (definition; used by DataProcessor.CleanAlarmFacts) |
| AnsibleParser.LooksLikeVm | services/ansible_parser.py:156-162 | `any(indicator in data ...)` over the seven indicator keys, stopping at the first hit (definition; stated by AnsibleParser.LooksLikeVmIffIndicator) |
| AnsibleParser.VmScan | services/ansible_parser.py:106-130 | the records of the first VM container present, then the leaf itself when it looks like a VM (definition; stated by AnsibleParser.VmFirstLocationWins, AnsibleParser.LeafAlsoCountsAsVm, and matched by AnsibleParser.ExtractVmData) |
| AnsibleParser.AlarmScan | services/ansible_parser.py:132-154 | the records of the first alarm container present (definition; stated by AnsibleParser.AlarmFirstLocationWins, and matched by AnsibleParser.ExtractAlarmData) |
| AnsibleParser.PlaybookShape | services/ansible_parser.py:76-82 | the plays, tasks and hosts folds; a play or task that is not a mapping raises on `get`, a `hosts` that is not a mapping on `items` (definition; matched by AnsibleParser.ParsePlaybook) |
| AnsibleParser.Extracted | services/ansible_parser.py:36-74 | the shape dispatch of `_extract_vcenter_data` (definition; stated by AnsibleParser.ShapeDispatch, and matched by AnsibleParser.ExtractVcenterData) |
| Counting.Count | services/data_processor.py:308 | a count is at most the length, and positive iff the value occurs |
| Counting.Distinct | services/data_processor.py:330 | the distinct values are exactly the values that occur, without repeats |
| Counting.Tally | services/data_processor.py:308 | each key is paired with its number of occurrences |
| Counting.SortByCount | services/data_processor.py:308 | sorting by count is a rearrangement of the pairs |
| Counting.SortByCountSorted | services/data_processor.py:308 | sorting by count yields non-increasing counts |
| Counting.SortByCountSum | services/data_processor.py:308 | sorting keeps the total of the counts |
| Counting.TallyDistinctSum | services/data_processor.py:308 | the counts of the distinct values add up to the number of values |
| Counting.Head | services/data_processor.py:312 | `head(n)` is a prefix of at most `n` elements |
| Counting.ValueCountsFacts | services/data_processor.py:308 | `value_counts` has one entry per distinct value, sorted by count, with true counts summing to the number of rows, and every value occurs in it |
| Counting.ValueCounts | services/data_processor.py:308 | `value_counts()`: the distinct values with their counts, sorted by count (definition; stated by Counting.ValueCountsFacts) |
| DataProcessor.Trunc | services/data_processor.py:138-141 | `astype(int)` truncates toward zero |
| DataProcessor.CoercionDefaults | services/data_processor.py:136-141 | missing, structured or unparseable cells become 0 or 0.0; ints stay; booleans become 0 or 1; reals are truncated to ints |
| DataProcessor.ToNumeric | services/data_processor.py:138-141 | `pd.to_numeric(errors='coerce')` on one cell: booleans are 0 or 1, numbers stay, strings go through the parser, anything else is NaN (definition; stated by DataProcessor.CoercionDefaults) |
| DataProcessor.CleanVmRow | services/data_processor.py:133-160 | one cleaned VM row: defaults, coerced cells, derived metrics and the bucket (definition; stated by DataProcessor.CleanVmFacts) |
| DataProcessor.CleanVms | services/data_processor.py:133-160 | cleaning keeps one row per record, in order |
| DataProcessor.CleanVmFacts | services/data_processor.py:136-158 | the name defaults to `Unknown VM`; the cells are the coerced inputs; memory in GB, the cpu/memory ratio (the divisor 0 replaced by 1) and the weighted score are the rounded formulas; the category follows the score |
| DataProcessor.CpuMemoryRatio | services/data_processor.py:145 | the ratio divides by the cpu count, with only 0 replaced by 1 |
| DataProcessor.PoweredOnIffPoweredOnState | services/data_processor.py:153 | a row is powered on iff the normalised power state is `poweredon` |
| DataProcessor.WebServerCells | services/data_processor.py:138-150 | 4 CPUs, 8192 MB and 100.5 GB give the cells 4, 8192 and 100.5 and the metrics from 8 GB |
| DataProcessor.WebServerExample | services/data_processor.py:144-158 | a powered-on 4 CPU, 8192 MB, 100.5 GB VM has 8.0 GB, ratio 2.0, score 34.55 and category Medium |
| DataProcessor.Bucket | services/data_processor.py:154-158 | right-closed buckets: (0,10] Low, (10,50] Medium, (50,100] High, above 100 Critical, none at 0 or below |
| DataProcessor.BucketEdges | services/data_processor.py:154-158 | the edges 0, 10, 50 and 100 fall in no bucket, Low, Medium and High |
| DataProcessor.BucketMonotone | services/data_processor.py:154-158 | a higher positive score never gets a lower category |
| DataProcessor.TableLookup | services/data_processor.py:181 | a hit is an entry of the table; a miss means no entry has that key |
| DataProcessor.SeverityTableEntries | services/data_processor.py:172-180 | the seven-entry table, with `error` mapped to Critical |
| DataProcessor.NormalizeSeverity | services/data_processor.py:172-181 | the lower-cased label looked up in the severity table, `Unknown` on a miss (definition; stated by DataProcessor.SeverityClasses, DataProcessor.SeverityIgnoresCase) |
| DataProcessor.SeverityClasses | services/data_processor.py:172-181 | each normalised class is reached by exactly its lower-cased labels |
| DataProcessor.SeverityIgnoresCase | services/data_processor.py:181 | normalisation depends only on the lower-cased label |
| DataProcessor.PriorityOrder | services/data_processor.py:184-191 | priority tells severities apart, orders Critical above Warning above Unknown above Information above Normal, and is at most 5 |
| DataProcessor.Priority | services/data_processor.py:184-191 | the priority table: Critical 5, Warning 3, Unknown 2, Information 1, Normal 0 (definition; stated by DataProcessor.PriorityOrder) |
| DataProcessor.TriggeredCell | services/data_processor.py:194-195 | `pd.to_datetime(errors='coerce')`: a parsed time stays, no time is NaT, a kept raw value goes through the datetime parser (definition; used by DataProcessor.CleanAlarmFacts) |
| DataProcessor.CleanAlarmRow | services/data_processor.py:162-198 | one cleaned alarm row: defaults, normalised severity, priority and age (definition; stated by DataProcessor.CleanAlarmFacts) |
| DataProcessor.DaysSince | services/data_processor.py:196 | the whole days elapsed, rounded down, also for times in the future |
| DataProcessor.CleanAlarms | services/data_processor.py:162-198 | the cleaning raises the naive-minus-aware TypeError iff some triggered time carries a zone; otherwise it gives one cleaned row per alarm, in order |
| DataProcessor.CleanAlarmFacts | services/data_processor.py:165-196 | an aware time makes the whole cleaning raise; otherwise name, VM and acknowledgement are filled (acknowledged defaults to False), the priority is that of the normalised severity, an age exists iff the time parsed, and a parsed time is naive and gives the whole days elapsed |
| DataProcessor.DefaultAcknowledgementIsFalse | services/data_processor.py:169 | a missing or boolean acknowledgement ends up boolean |
| DataProcessor.NonNull | services/data_processor.py:312 | dropping nulls keeps exactly the non-null values |
| DataProcessor.HashError | services/data_processor.py:308-330 | hashing a column succeeds iff no cell is a list or mapping; otherwise it raises `unhashable type` for the first such cell |
| DataProcessor.AckCountsTotal | services/data_processor.py:328-329 | the acknowledged and unacknowledged counts exist iff every flag is boolean, and then add up to the row count |
| DataProcessor.VmStatisticsFacts | services/data_processor.py:298-315 | no statistics iff no VMs; the statistics raise iff some guest system is a list or mapping; otherwise the total is the VM count, the power-state counts add up to it, and the OS distribution has at most 10 true counts of non-null guests, most common first |
| DataProcessor.MostCommon | services/data_processor.py:312 | `value_counts().head(n)` has at most `n` entries, sorted by count, each a true count of a value that occurs |
| DataProcessor.AlarmStatisticsFacts | services/data_processor.py:317-333 | no statistics iff no alarms; the statistics raise iff some triggered time is aware or some VM name is a list or mapping; otherwise severity counts add up to the total, acknowledged plus unacknowledged is the total when every flag is boolean, and the unique VM count is the number of distinct VM names, between 1 and the total |
| DataProcessor.VmStatistics | services/data_processor.py:298-315 | `_calculate_vm_statistics` (definition; stated by DataProcessor.VmStatisticsFacts) |
| DataProcessor.AlarmStatistics | services/data_processor.py:317-333 | `_calculate_alarm_statistics` (definition; stated by DataProcessor.AlarmStatisticsFacts) |
| DataProcessor.AckCounts | services/data_processor.py:328-329 | `acknowledged.sum()` and `(~acknowledged).sum()` over boolean flags (definition; stated by DataProcessor.AckCountsTotal) |
| DataProcessor.EnvSuffix | services/data_processor.py:53-56 | the suffix is non-empty iff the job is found and both its tags are non-empty |
| DataProcessor.ExportPaths | services/data_processor.py:335-357 | exactly three paths, `.csv`, `.xlsx` and `.json`, on one base name |
| DataProcessor.ExportDataFrame | services/data_processor.py:335-357 | the method returns the CSV, workbook and JSON paths in that order |
| DataProcessor.PartitionExports | services/data_processor.py:73-82 | one export triple per distinct non-null environment, in order of first appearance, named after that environment's first client |
| DataProcessor.Column | services/data_processor.py:68-70 | every row gets the job's single value |
| DataProcessor.DistinctOfColumn | services/data_processor.py:75 | a column holding one value has exactly that one distinct value |
| DataProcessor.ProcessSection | services/data_processor.py:47-88 | a section writes the partitioned exports when the job is found and one unsuffixed export otherwise |
| DataProcessor.SectionPaths | services/data_processor.py:47-88 | the files one section writes: the environment partition when the job is found, else one export with the job's suffix (definition; stated by DataProcessor.SectionHasAtMostOneExport, DataProcessor.SectionLength, and matched by DataProcessor.ProcessSection) |
| DataProcessor.SectionHasAtMostOneExport | services/data_processor.py:68-86 | no job gives one export without a suffix; a null environment gives no files; otherwise exactly one export named `vcenter_<kind>_<client>_<env>_<ts>` |
| DataProcessor.SectionLength | services/data_processor.py:73-86 | a section writes three files or none |
| DataProcessor.ProcessData | services/data_processor.py:20-45 | the VM section (if any VMs), then the alarm section (if any alarms), then the summary path, which is always last |
| DataProcessor.OutputPlanShape | services/data_processor.py:27-38 | the summary is last; the count is one more than a multiple of three and at most seven; a null environment or empty lists leave only the summary |
| DataProcessor.OutputPlan | services/data_processor.py:27-38 | the VM section if any VMs, then the alarm section if any alarms, then the summary (definition; stated by DataProcessor.OutputPlanShape, and matched by DataProcessor.ProcessData) |
| DataProcessor.SummaryReport | services/data_processor.py:274-296 | a summary that is produced carries the job id and the list lengths, and agrees with both statistics' totals |
| DataProcessor.SummaryReportRaises | services/data_processor.py:274-296 | the summary raises exactly when a guest system is unhashable, an alarm time is aware or a VM name is unhashable, with the error of the first of these in that order |
| DataProcessor.ExportOutcome | services/data_processor.py:20-45 | the export returns files iff no writer fails, no alarm time is aware and the statistics raise nothing, and then returns the plan; otherwise the files on disk are a leading part of the plan, all of it only when the last write raised after leaving its file |
| DataProcessor.Stop | services/data_processor.py:20-45 | nothing is raised iff neither a writer nor the data raises; a writer that fails before the data's exception is the one raised, with the files before it (and its own if left behind); otherwise the data's exception, at its point |
| DataProcessor.AwareAlarmsKeepVmFiles | services/data_processor.py:27-34 | an aware alarm time, with no writer failing earlier, raises the subtraction error with exactly the VM files written |
| DataProcessor.StatisticsErrorSkipsSummary | services/data_processor.py:36-38 | a statistics error, with no writer failing earlier, raises once both sections are written, with only the summary missing |
| DataProcessor.WriterFailsFirst | services/data_processor.py:20-45 | a writer that fails before the data raises ends the export there: the files before it stay, and the failing one if it was left behind |
| DataProcessor.MaxLen | services/data_processor.py:243-248 | the maximum is at least every cell's length and reached by some cell |
| DataProcessor.ColumnWidth | services/data_processor.py:240-250 | the width is `min(maxlen + 2, 50)`, so it lies between 2 and 50 |
| DataProcessor.ColumnWidths | services/data_processor.py:262-272 | one width per column, each `min(maxlen + 2, 50)` and at most 50 |
| Jobs.NewJob | models.py:5-19 | a new row is pending with the given names and tags, no timestamps, no error, no outputs and zero counts |
| Jobs.Insert | models.py:6 | inserting takes the next id, keeps every other row and keeps the table well formed |
| Jobs.LowestMatch | routes/api.py:28-30 | `.first()`: the lowest matching id from a start, with nothing matching below it |
| Jobs.FindJob | routes/api.py:28-30 | a hit is a matching row; a miss means no row matches |
| Jobs.IdsWhere | services/scheduler.py:108-111 | the ids of the rows satisfying a filter, ascending, and all of them |
| Jobs.InsertKeepsActiveUnique | routes/api.py:28-47 | inserting a job for a path with no active job keeps at most one active job per path |
| Jobs.UpdateKeepsActiveUnique | services/scheduler.py:43-45 | updating an active row in place without changing its path keeps at most one active job per path |
| Jobs.JobStore.constructor | models.py:5-19 | a new store is empty and assigns id 1 first |
| Jobs.JobStore.Add | services/file_watcher.py:73-74 | adding a row inserts it under the next id and returns that id |
| Jobs.JobStore.Put | services/scheduler.py:43-45 | committing a row replaces only that row |
| Jobs.JobStore.Delete | services/scheduler.py:124 | deleting removes only that row |
| Scheduler.ParserWorld | services/scheduler.py:54 | the scheduler's parse outcome is `ParseFile` on the decoder's output |
| Scheduler.Fail | services/scheduler.py:77-81 | the handler marks the job failed with the message and completion time, keeping outputs and counts |
| Scheduler.ProcessedPath | services/scheduler.py:89-92 | the destination ends with `<timestamp>_<basename>` |
| Scheduler.MoveProcessedFile | services/scheduler.py:85-98 | a successful move replaces the input by the destination; a failed move changes nothing |
| Scheduler.ProcessSingleJob | services/scheduler.py:37-83 | the method leaves the job row and the files as the specification of one run says, touching no other row |
| Scheduler.AttemptJob | services/scheduler.py:49-81 | the method from the existence test on updates only the job's row and the files, as the attempt specification says |
| Scheduler.ExportJob | services/scheduler.py:62-81 | the method from `process_data` on updates only the job's row and the files, as the finish specification says |
| Scheduler.Run | services/scheduler.py:37-83 | one job: marked processing, then not found, parse failure, export failure, or completed and moved (definition; stated by Scheduler.RunEndsSettled, Scheduler.RunMissingFile, Scheduler.RunParseFailure, Scheduler.RunExportFailure, Scheduler.RunCompletes, and matched by Scheduler.ProcessSingleJob) |
| Scheduler.Attempt | services/scheduler.py:49-81 | the existence test, the parse and its counts, then the export (definition; matched by Scheduler.AttemptJob) |
| Scheduler.Finish | services/scheduler.py:62-81 | the export's exception fails the job with the written files kept; otherwise the job completes with the plan as outputs and the input is moved (definition; matched by Scheduler.ExportJob) |
| Scheduler.Export | services/scheduler.py:64 | `process_data` for the job: its tags, the pass's timestamp, the output directory and the writer failure for its path (definition; stated by DataProcessor.ExportOutcome) |
| Scheduler.RunEndsSettled | services/scheduler.py:43-81 | every run ends completed or failed, started and completed at the pass's time, with the job's names and tags kept |
| Scheduler.RunMissingFile | services/scheduler.py:50-51 | a missing file fails with `File not found: <path>`, leaving outputs, counts and files unchanged |
| Scheduler.RunCompletes | services/scheduler.py:54-73 | a run completes iff the file exists, parses, no writer fails, no alarm time is aware and the statistics raise nothing; then the counts are the list lengths, the outputs are the processor's plan with the summary last, and a successful move puts the file in place |
| Scheduler.RunParseFailure | services/scheduler.py:54 | a parse error fails the job with that message, before any count is committed |
| Scheduler.RunExportFailure | services/scheduler.py:62-81 | an export exception fails the job with its message, keeps the committed counts and earlier outputs, leaves the input in place, and adds to the files exactly the leading part of the plan written before the exception |
| Scheduler.RunAwareAlarms | services/scheduler.py:62-81 | an aware alarm time, with no writer failing earlier, fails the job with the subtraction message and adds only the VM files |
| Scheduler.MoveFailureIsSwallowed | services/scheduler.py:85-98 | whether the move fails never changes the job's outcome |
| Scheduler.RunKeepsActiveUnique | services/scheduler.py:37-83 | processing a job keeps at most one active job per path |
| Scheduler.Batch | services/scheduler.py:21 | a batch holds at most 10 pending ids, ascending |
| Scheduler.SmallBacklogIsTakenWhole | services/scheduler.py:21 | with at most 10 pending jobs, the batch holds all of them |
| Scheduler.RunAllFrame | services/scheduler.py:31-32 | a pass keeps the set of rows and leaves rows outside the batch unchanged |
| Scheduler.RunAllSettles | services/scheduler.py:31-32 | every job of the batch ends completed or failed, whatever the others do |
| Scheduler.RunAll | services/scheduler.py:31-32 | the batch's jobs run one after the other, each on the table and files the previous left (definition; stated by Scheduler.RunAllFrame, Scheduler.RunAllSettles, and matched by Scheduler.ProcessPendingJobs) |
| Scheduler.ProcessPendingJobs | services/scheduler.py:17-35 | the loop runs the batch claimed at the start, in order, as the specification of a pass says |
| Scheduler.PassSettlesBatch | services/scheduler.py:21-32 | after a pass every batch job is settled and every other row is as it was |
| Scheduler.Sweep | services/scheduler.py:105-124 | the rows kept are exactly the rows not expired, unchanged |
| Scheduler.Cutoff | services/scheduler.py:105 | the cutoff is 30 days (`RETENTION_DAYS`) before the clock reading (definition; used by Scheduler.SweepKeepsLiveJobs) |
| Scheduler.Expired | services/scheduler.py:108-111 | a completed or failed job with a completion time strictly before the cutoff; a row without one never qualifies (definition; stated by Scheduler.Sweep, Scheduler.SweepKeepsLiveJobs) |
| Scheduler.Listed | services/scheduler.py:115-116 | a job's artifacts are exactly the paths in its output list |
| Scheduler.OutputsOfMembers | services/scheduler.py:113-121 | the artifacts of a set of jobs are exactly the union of their listed outputs |
| Scheduler.Without | services/scheduler.py:113-124 | removing ids keeps exactly the other rows, unchanged |
| Scheduler.WithoutExpiredIsSweep | services/scheduler.py:108-124 | deleting the queried ids one by one is the sweep |
| Scheduler.RemoveFiles | services/scheduler.py:116-121 | every listed file is removed except those whose deletion fails |
| Scheduler.DeleteJob | services/scheduler.py:113-124 | a deleted job's row is gone and its artifacts are removed, except those whose deletion fails |
| Scheduler.CleanupOldRecords | services/scheduler.py:100-137 | the table becomes the sweep at the cutoff, and the expired jobs' artifacts are removed, except those whose deletion fails |
| Scheduler.SweepKeepsLiveJobs | services/scheduler.py:105-111 | active jobs, unfinished jobs and jobs finished within 30 days are kept; a completed job finished earlier is deleted |
| Scheduler.SweepKeepsActiveUnique | services/scheduler.py:108-124 | the sweep keeps at most one active job per path |
| FileWatcher.FirstMatch | services/file_watcher.py:90-93 | no match iff no pattern occurs in the path; otherwise the first pattern in table order that occurs |
| FileWatcher.MatchPatterns | services/file_watcher.py:84-93 | the loop returns the first matching pattern's information, else `unknown`/`unknown` |
| FileWatcher.ExtractEnvironmentInfo | services/file_watcher.py:81-106 | the method equals the pattern information, overridden by the path segments when there are at least three |
| FileWatcher.EnvironmentInfo | services/file_watcher.py:81-106 | the first matching pattern's values, overridden by the segments of a path of three or more parts (definition; stated by FileWatcher.LastClientSegmentWins, FileWatcher.LastEnvironmentSegmentWins, FileWatcher.ShortPathUsesPatterns, and matched by FileWatcher.ExtractEnvironmentInfo) |
| FileWatcher.SegmentStepFields | services/file_watcher.py:100-104 | a client segment sets only the client; otherwise an environment keyword sets only the environment |
| FileWatcher.LastClientSegmentWins | services/file_watcher.py:100-102 | the client is the last client segment, or the pattern's client when there is none |
| FileWatcher.LastEnvironmentSegmentWins | services/file_watcher.py:103-104 | the environment is the last environment segment that is not a client segment, or the pattern's environment |
| FileWatcher.ShortPathUsesPatterns | services/file_watcher.py:84-98 | a path of fewer than three parts takes the first matching pattern's values, or `unknown` |
| FileWatcher.JsonIsSupported | services/file_watcher.py:36-41 | a `.json` extension passes the extension filter |
| FileWatcher.JsonFileIsSupported | services/file_watcher.py:36-41 | `dir/stem.json` passes the extension filter |
| FileWatcher.Admitted | services/file_watcher.py:36-46 | a supported extension, in any case, and a readable size of at most 50 MB (definition; used by FileWatcher.NewFile, FileWatcher.SampleFileIsAdmitted) |
| FileWatcher.WatchedJob | services/file_watcher.py:65-71 | the watcher's job is pending, named after the file and tagged with the classifier's environment and client |
| FileWatcher.NewFile | services/file_watcher.py:32-79 | an admitted file with no pending or processing job gets one new tagged job; anything else leaves the table unchanged |
| FileWatcher.NewFileKeepsActiveUnique | services/file_watcher.py:55-74 | the intended guard keeps at most one active job per path |
| FileWatcher.NewFileIdempotent | services/file_watcher.py:55-74 | a second event for the same file adds nothing |
| FileWatcher.ProcessNewFile | services/file_watcher.py:32-79 | the method updates the store as the intended specification says |
| FileWatcher.AsWrittenNeverQueues | services/file_watcher.py:55-79 | as written, the handler never changes the table |
| FileWatcher.NewFileAsWritten | services/file_watcher.py:32-79 | the handler as written: an admitted file reaches the duplicate query, whose exception the handler catches (definition; stated by FileWatcher.AsWrittenNeverQueues, FileWatcher.AsWrittenDropsNewFile) |
| FileWatcher.AsWrittenDropsNewFile | services/file_watcher.py:55-79 | for an admitted file and an empty table, the code as written adds nothing while the intended guard adds job 1 |
| FileWatcher.SampleFileIsAdmitted | services/file_watcher.py:36-46 | a 1024-byte `vm_data.json` in the watch directory passes both filters |
| FileWatcher.EventTarget | services/file_watcher.py:20-30 | directories are ignored; a creation uses the source path and a move uses the destination path |
| FileWatcher.OnEvent | services/file_watcher.py:20-30 | an event on a file runs the new-file handler on the chosen path, and a directory event changes nothing |
| FileWatcher.Pairs | services/file_watcher.py:136-137 | each file of a directory is paired with its directory, in order |
| FileWatcher.ScanEntry | services/file_watcher.py:138-154 | one scanned file keeps the table well formed and keeps every existing row |
| FileWatcher.ScanAll | services/file_watcher.py:136-154 | the scan keeps the table well formed and keeps every existing row |
| FileWatcher.ScanFile | services/file_watcher.py:138-154 | the method updates the store as the specification of one scanned file says |
| FileWatcher.ScanExistingFiles | services/file_watcher.py:129-159 | the walk loops update the store as the scan specification over all walked files says |
| FileWatcher.ScanCovers | services/file_watcher.py:139-154 | after the scan every supported walked file has a job |
| FileWatcher.ScanAddsOnlyNewSupported | services/file_watcher.py:141-151 | every job the scan adds is pending and untagged, for a supported walked file that had no job of any status |
| FileWatcher.ScanJobOrigin | services/file_watcher.py:141-151 | a job the scan added is pending, untagged and for a supported walked file that had no job before |
| FileWatcher.ScanOfCoveredIsIdentity | services/file_watcher.py:143-145 | a scan over files that all have jobs changes nothing |
| FileWatcher.ScanIdempotent | services/file_watcher.py:129-159 | scanning the same walk again adds nothing |
| FileWatcher.ScanKeepsActiveUnique | services/file_watcher.py:143-154 | the scan keeps at most one active job per path |
| Api.Reset | routes/api.py:112-117 | a retried row is pending with start, completion, error and outputs cleared and everything else kept |
| Api.RetryOnlyFailed | routes/api.py:104-124 | an unknown id is not found; a job that is not failed is rejected and the table unchanged; a failed job is reset and no other row changes |
| Api.Retry | routes/api.py:104-124 | `retry_job` on the table: not found, rejected unless failed, else reset (definition; stated by Api.RetryOnlyFailed, and matched by Api.RetryJob) |
| Api.RetryJob | routes/api.py:104-124 | the method updates the store and answers as the retry specification says |
| Api.RetryCanDuplicateActiveJobs | routes/api.py:109-117 | a failed job retried while another job for its path is pending leaves two active jobs for one path |
| Api.RetryKeepsActiveUnique | routes/api.py:109-117 | a retry keeps at most one active job per path when no other active job has the same path |
| Api.RequestPath | routes/api.py:18-22 | a non-object body is an error; a falsy path is missing; otherwise the path value itself, of whatever type |
| Api.Exists | routes/api.py:24 | `os.path.exists` on the path value: a string names a file, an integer or a boolean a file descriptor (definition; stated by Api.ExistsCases) |
| Api.ExistsCases | routes/api.py:24-25 | the existence test raises only for an integer outside the C `int` range or a value that is neither a string nor an integer; a string without NUL exists iff the file does, one with NUL never; an integer or `True` exists iff that descriptor is open |
| Api.Enqueue | routes/api.py:14-56 | `process_file` on the table (definition; stated by Api.EnqueueChecks, Api.EnqueueReportsActiveJob, Api.EnqueueKeepsActiveUnique, Api.EnqueueTwice, and matched by Api.ProcessFile) |
| Api.EnqueueChecks | routes/api.py:14-56 | a non-object body, a raising existence test, or an open descriptor is a server error; a falsy path 400; a path that does not exist (a closed descriptor included) 404; only a string path passing these and the active-job guard adds a row: an untagged pending job named after the file, under the next id |
| Api.EnqueueReportsActiveJob | routes/api.py:28-36 | with an active job for the path, the answer names an active job for it and the table is unchanged |
| Api.EnqueueKeepsActiveUnique | routes/api.py:28-47 | manual enqueue keeps at most one active job per path |
| Api.EnqueueTwice | routes/api.py:28-36 | enqueueing the same file again reports the job just created |
| Api.ProcessFile | routes/api.py:14-56 | the method updates the store and answers as the enqueue specification says |
| Api.DescriptorPaths | routes/api.py:24-25 | with only the standard streams open, `{"filepath": 12345}` gets 404 from both handlers and `{"filepath": 1}` a server error from both |
| Api.SizeLimitsAgree | routes/api.py:149-151 | the validator's MB limit and the watcher's byte limit reject the same sizes |
| Api.ValidateOrder | routes/api.py:139-176 | the extension is checked first, then the size, then parsing; a parse error is `valid: False` with the message; a valid result reports the extension and the list lengths |
| Api.ValidateFile | routes/api.py:126-180 | the method answers as the validation specification says |
| Api.Validate | routes/api.py:126-180 | `validate_file` (definition; stated by Api.ValidateOrder, Api.ValidateChecksAsEnqueue, and matched by Api.ValidateFile) |
| Api.CheckFile | routes/api.py:139-176 | the checks on a file that exists answer about the file, never 400 or 404 |
| Api.ValidateChecksAsEnqueue | routes/api.py:21-25 | `validate_file` answers 400 and 404 for exactly the requests `process_file` does, and a request `process_file` fails with 500 before touching the table is also a server error |

## Findings

| source | as written | input that shows it | evidently intended | confidence | as-written member | corrected member |
|---|---|---|---|---|---|---|
| services/file_watcher.py:55-63 | the duplicate query passes `status__in=[...]` to `filter_by`, which accepts only column names, so SQLAlchemy raises; the handler at :78-79 logs the exception and no job is ever created | an empty job table and the 1024-byte file `./ansible_outputs/vm_data.json` | queue a pending, tagged job unless a pending or processing job for the path exists, as `process_file` does at routes/api.py:28-30 | not executed | FileWatcher.NewFileAsWritten (shown by FileWatcher.AsWrittenNeverQueues, FileWatcher.AsWrittenDropsNewFile, FileWatcher.SampleFileIsAdmitted) | FileWatcher.NewFile (with FileWatcher.NewFileKeepsActiveUnique, FileWatcher.NewFileIdempotent) |

## Left out

- Lower-casing maps ASCII letters only. Python's `str.lower` also folds non-ASCII letters; the extensions and labels the core compares against are ASCII.
- Configuration overrides from the process environment (`WATCH_DIRECTORY`, `MAX_FILE_SIZE_MB`, `RETENTION_DAYS`, …) are not modelled. The constants are the defaults of config.py.
- Floating point is modelled as `real`. `round(…, 2)`, numeric parsing (`pd.to_numeric`), date parsing (`dateutil`, `pd.to_datetime`) and the JSON/YAML decoders are parameters.
- pandas data-frame mechanics are not modelled. A frame is a sequence of rows, so dtype inference, NaN versus None, and missing columns do not arise. `guest_os` and `vm_name` nulls are modelled as `Null` values.
- Counting.ValueCounts: keys are compared by value equality of the decoded cells, so `True`, `1` and `1.0` are three keys. pandas' `value_counts` and `nunique` compare by Python hash equality and merge them into one key, e.g. guest OS cells `True, 1` give one key with count 2 and `nunique` 1 there, but two keys and 2 here. The statistics built on it (DataProcessor.VmStatistics, DataProcessor.AlarmStatistics) differ in the same way.
- Counting.Distinct: the `nunique` of the VM names counts `True`, `1` and `1.0` as three values where pandas counts one, for the same reason.
- Counting.SortByCount: ties in `value_counts` are ordered by first appearance, which is not pandas' exact tie order; only the counts and the non-increasing order are stated.
- Clocks are one reading per pass (`World.now` and `World.stamp`). The separate `datetime.now()` calls in one run are assumed to agree.
- `.first()` and `.limit(10)` are modelled as lowest id first. The source gives no `order_by`, and the database's default order is assumed.
- Export writes (CSV, Excel, JSON) are modelled as the planned paths and an optional writer failure per input path (`World.writeFailure`). The failure gives the write that raises, its exception, and whether its file is left behind. Excel styling, the content of the files, and which cell values a writer cannot store are not modelled; the last is part of the failure oracle.
- The summary's `processed_at` and `metadata` fields are not modelled, and neither is the summary's JSON serialisation.
- `ProcessingLog` rows and their deletion in `cleanup_old_records` are not modelled. Logging has no effect on the state.
- Database commit failures and `rollback` are not modelled. Every commit succeeds.
- The watchdog `Observer`, `time.sleep`, the APScheduler timers and concurrency between the watcher, the scheduler and the API are not modelled; each operation is one sequential step.
- The in-place write `vm_info['name'] = …` during extraction is modelled on values. The caller's dictionary is not updated, and YAML aliases that share one dictionary between two places are not modelled.
- Byte-string event paths (`decode('utf-8')`) are not modelled. Paths are strings.
- Api.Enqueue: for an open descriptor number, the duplicate query runs before `basename` raises. If SQLite matched the number against an active job's text path, the source would answer 200. The model answers 500, as for every other open descriptor.
- Api.Exists: the descriptor range is that of a 32-bit C `int`. Byte-string and path-like values cannot come out of JSON and are not modelled.
- Api.ValidateOrder: the message text of the size rejection, the `round(size_mb, 2)` in a valid answer, and a `getsize` failure (a server error) are modelled only as the `TooLarge` and `ValidateError` constructors.
- DataProcessor.CleanAlarms: every column holding a zone-aware time raises the subtraction's TypeError. A column that mixes aware and naive times, or several offsets, makes `pd.to_datetime` itself raise or coerce differently, depending on the pandas version. The job fails in every such case; only the message may differ from the model.
- DataProcessor.AckCounts: an acknowledgement that is not a boolean after `fillna(False)` makes pandas raise (a string, float, list or mapping under `~`) or yield counts that are not counts (`~` on an integer is a bitwise not). The model gives no counts (`None`) instead of either.
- DataProcessor.IntCell: `astype(int)` produces 64-bit integers. Values outside that range raise or wrap in pandas; the model's integers are unbounded.
- Dashboard routes, status and log queries, setup scripts and database migrations are outside the core and are not modelled.
- The intermediate `processing` status is modelled in `ProcessSingleJob`'s commits but is not visible after a run. No other operation runs while a job is being processed.
