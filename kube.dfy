/** The slice of the Kubernetes object model that the tool builds, stores and reads
    back: a batch Job, its pod template and its live status. Pointers that the Go
    types leave nil are `Option`s here. */
module Kube {

  datatype Option<+T> = None | Some(value: T)

  /** True when `c` is an ASCII decimal digit. */
  predicate IsDigit(c: char) {
    '0' <= c <= '9'
  }

  /** The shape of a time rendered with Go's `time.DateTime` layout,
      "2006-01-02 15:04:05": four digits, '-', two digits, '-', two digits,
      ' ', two digits, ':', two digits, ':', two digits. */
  predicate IsDateTimeText(s: string) {
    |s| == 19 &&
    s[4] == '-' && s[7] == '-' && s[10] == ' ' && s[13] == ':' && s[16] == ':' &&
    forall i :: 0 <= i < 19 && i !in {4, 7, 10, 13, 16} ==> IsDigit(s[i])
  }

  /** A completion time, held as its `time.DateTime` rendering; the clock and the
      layout engine that produce it are not part of this model. */
  type DateTime = s: string | IsDateTimeText(s) witness "2006-01-02 15:04:05"

  datatype EnvVar = EnvVar(name: string, value: string)

  datatype VolumeMount = VolumeMount(name: string, mountPath: string)

  datatype VolumeSource = EmptyDir | OtherSource(kind: string)

  datatype Volume = Volume(name: string, source: VolumeSource)

  datatype SecurityContext = SecurityContext(privileged: Option<bool>)

  datatype Container = Container(
    name: string,
    image: string,
    command: seq<string>,
    env: seq<EnvVar>,
    volumeMounts: seq<VolumeMount>,
    securityContext: Option<SecurityContext>)

  datatype RestartPolicy = Unset | Always | OnFailure | Never

  datatype PodSpec = PodSpec(
    initContainers: seq<Container>,
    containers: seq<Container>,
    volumes: seq<Volume>,
    restartPolicy: RestartPolicy)

  datatype ObjectMeta = ObjectMeta(name: string, namespace: string, labels: map<string, string>)

  /** What the cluster records about a run; the tool only reads it. */
  datatype JobStatus = JobStatus(failed: int, succeeded: int, completionTime: Option<DateTime>)

  datatype Job = Job(meta: ObjectMeta, template: PodSpec, status: JobStatus)

  /** The status of a Job that has just been built and not yet run. */
  const NoStatus := JobStatus(0, 0, None)
}
