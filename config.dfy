/** The configuration constants the core reads, at their default values
    (the directories and limits can be overridden from the process
    environment, which is not modelled). */
module Config {

  const WatchDirectory: string := "./ansible_outputs"
  const ProcessedDirectory: string := "./processed"
  const OutputDirectory: string := "./powerbi_outputs"

  /** What a path pattern says about a file's origin. */
  datatype EnvInfo = EnvInfo(environment: string, client: string)

  /** `ENVIRONMENT_MAPPING`, in its declared order. */
  const EnvironmentMapping: seq<(string, EnvInfo)> := [
    ("prod-vcenter1", EnvInfo("production-vc1", "client-a")),
    ("prod-vcenter2", EnvInfo("production-vc2", "client-b")),
    ("dev-vcenter", EnvInfo("development", "internal")),
    ("test-vcenter", EnvInfo("testing", "internal"))]

  const SupportedExtensions: seq<string> := [".json", ".yaml", ".yml"]

  const MaxFileSizeMb: nat := 50

  /** The largest accepted file, in bytes. */
  const MaxFileSizeBytes: nat := MaxFileSizeMb * 1024 * 1024

  const RetentionDays: nat := 30

  const SecondsPerDay: nat := 86400

  const SeparateByEnvironment: bool := true
}
