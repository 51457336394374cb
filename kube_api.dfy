/**
 * The part of the Kubernetes API objects (batch/v1 Job, core/v1 PodSpec)
 * that the backends fill in.  Pointer fields become Option values.
 */
module KubeApi {
  import opened Wrappers

  datatype EnvVar = EnvVar(name: string, value: string)

  datatype VolumeMount = VolumeMount(name: string, mountPath: string, readOnly: bool)

  /** A container; `envFrom` lists the names of the secrets it imports. */
  datatype Container = Container(
    name: string,
    image: string,
    pullPolicy: string,
    command: seq<string>,
    env: seq<EnvVar>,
    envFrom: seq<string>,
    volumeMounts: seq<VolumeMount>)

  datatype KeyToPath = KeyToPath(key: string, path: string, mode: Option<int>)

  datatype VolumeSource =
    | EmptyDir
    | SecretVolume(secretName: string, items: seq<KeyToPath>, optional: Option<bool>)

  datatype Volume = Volume(name: string, source: VolumeSource)

  datatype PodSpec = PodSpec(
    restartPolicy: string,
    initContainers: seq<Container>,
    containers: seq<Container>,
    volumes: seq<Volume>)

  datatype Job = Job(
    name: string,
    namespace: string,
    labels: map<string, string>,
    ttlSecondsAfterFinished: Option<int>,
    backoffLimit: Option<int>,
    pod: PodSpec)

  const PullIfNotPresent := "IfNotPresent"
  const RestartNever := "Never"

  /** File mode 0600. */
  const Mode0600 := 0x180

  /** The four gemini OAuth files: secret key "GEMINI_" + file, mounted as the file. */
  const GeminiFiles := ["oauth_creds.json", "google_accounts.json", "installation_id", "settings.json"]

  /** The items of that volume, in the order the job specs list them. */
  function GeminiItems(): (r: seq<KeyToPath>)
    ensures |r| == |GeminiFiles|
    ensures forall i :: 0 <= i < |r| ==> r[i].key == "GEMINI_" + r[i].path && r[i].mode == Some(Mode0600)
  {
    seq(|GeminiFiles|, i requires 0 <= i < |GeminiFiles| =>
      KeyToPath("GEMINI_" + GeminiFiles[i], GeminiFiles[i], Some(Mode0600)))
  }

  /** The optional secret volume holding the gemini OAuth files. */
  function GeminiVolume(secretName: string): Volume {
    Volume("gemini-oauth", SecretVolume(secretName, GeminiItems(), Some(true)))
  }

  const GeminiMount := VolumeMount("gemini-oauth", "/root/.gemini", true)

  /** The names of the jobs, in order (ApplyChange's jobNames). */
  function Names(jobs: seq<Job>): (r: seq<string>)
    ensures |r| == |jobs| && forall i :: 0 <= i < |jobs| ==> r[i] == jobs[i].name
  {
    if jobs == [] then [] else Names(jobs[..|jobs| - 1]) + [jobs[|jobs| - 1].name]
  }
}
