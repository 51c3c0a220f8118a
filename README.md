# cdtool core, modelled in Dafny

cdtool is a command-line tool that turns a disk image into a container disk
image with a Kubernetes batch Job. The Job's init container downloads the image
into a scratch volume. Its main container then builds the container image and
pushes it to a registry. The tool can also list and show its own jobs. The
model covers the deterministic core of `main.go`:

- `kube.dfy` (module `Kube`): the parts of the Kubernetes Job, Container,
  EnvVar, VolumeMount, Volume and JobStatus types that the tool reads or
  writes, as datatypes.
- `jobspec.dfy` (module `JobSpec`): `newJob`, the builder of the job
  descriptor, and the upload settings with their defaults.
- `naming.dfy` (module `Naming`): the pieces the upload commands build before
  they make a job:
  - the job name `cdtool-<stamp>-<suffix>` and how it reads back;
  - `filepath.Base`;
  - `netip.AddrPortFrom` with the `uint16` cut of the port, and the
    `addr:port` text;
  - the URL of the local file server;
  - the path of the copied file.
- `poller.dfy` (module `Poller`): `waitForJob`, a loop over the sequence of
  answers that the successive status fetches return.
- `display.dfy` (module `Display`): the loops of `ListJobs` and `ShowJob`. Each
  is proved against a recursive function that gives the table rows.
- `upload.dfy` (module `Upload`): `UploadImgRemote` and `UploadImgLocal`.
  The local command is proved against `LocalRun`, the run it makes.
  `LocalProgress` counts how many of its steps succeed.
  - Every external effect is a parameter: the clock reading and random suffix,
    the temporary directory, the copy, the cluster client, job creation and the
    status fetches.
  - A run of a command is the list of external calls it makes, in order, and
    the way the process ends: a fatal log with its message, a normal return,
    or still polling.

Three behaviours of the code that the model keeps as they are:

- The job name uses the local clock reading, not UTC. Either way the stamp is
  a parameter in the fixed 13-character layout.
- The local command copies the file first and only then starts the file
  server. The server runs in a goroutine, so the command goes on to submit the
  job without waiting for the server to bind. The model records that the
  server is started; what the server does afterwards is out of scope (see
  below).
- `ShowJob` reads the first init container, the first container and their
  first environment entries without checking that they exist. A listed job
  that lacks them stops the command with an index panic. The rows written
  before it are still flushed, because the deferred `Flush` runs during the
  panic. `ShowOutcome` and `ShowTable` model exactly this.

## Model

| member | source | states |
|---|---|---|
| JobSpec.NewJob | main.go:131-206 | The job carries the given name, the upload namespace and exactly the label `app.kubernetes.io/name=cdtool`. Its only init container is `download`: it runs the configured download image with `sh -c "wget $URL -O /save/disk.img"`, has env exactly `[URL=url]`, and mounts exactly `saveplace` at `/save`. It has no security context, so it is not privileged. Its only container is `buildandpush`: it runs the configured build image with `sh -c /buildandpush.sh`, has env exactly `[TAG=tag, INSECURE=true]`, mounts exactly `saveplace` at `/save` and `varlibcontainers` at `/var/lib/containers`, and is privileged. The volumes are exactly the emptyDir volumes `varlibcontainers` and `saveplace`, and every mount of every container names one of them. The restart policy is `Never` and the status is empty. |
| JobSpec.StagesShareOnlySaveVolume | main.go:152-157 | Any volume that both the download and the build stage mount is `saveplace`. |
| JobSpec.DefaultJobImages | main.go:70-72 | With the default settings, the job goes to namespace `default`, the download stage runs `busybox:stable` and the build stage runs `ghcr.io/hujun-open/cdtool:latest`. |
| Naming.JobName | main.go:88-90 | Every job name has 25 characters. |
| Naming.ParseJobName | main.go:88-90 | A name that reads back has 25 characters and starts with `cdtool-`. |
| Naming.JobNameRoundTrip | main.go:88-90 | Every job name reads back as the stamp and suffix it was made from. |
| Naming.ParseJobNameSound | main.go:88-90 | Every name that reads back is the job name of the stamp and suffix it reads as. |
| Naming.JobNameIsDnsLabel | main.go:88-90 | Every job name has 25 characters and is a valid RFC 1123 label, so the cluster accepts it as a Job name. |
| Naming.Base | main.go:108 | The last element of the empty path is ".". The last element is never empty, and it holds a slash only when it is exactly "/". |
| Naming.BaseIgnoresTrailingSlash | main.go:108 | A trailing slash does not change the last element of a non-empty path. |
| Naming.BaseOfSlashes | main.go:108 | A non-empty path of slashes only has "/" as its last element. |
| Naming.BaseOfJoin | main.go:108 | A slash-free element joined under any directory is that path's last element. |
| Naming.BaseOfPlainName | main.go:108 | A non-empty name without slashes is its own last element. |
| Naming.CopyTarget | main.go:108 | Unless the file's last element is "/", the copy target has the same last element as the local file. |
| Naming.Decimal | main.go:117-122 | The decimal rendering of a port is non-empty, has digits only and no leading zero. |
| Naming.DecimalRoundTrip | main.go:117-122 | The decimal rendering reads back as the number it was made from. |
| Naming.Port16 | main.go:115 | `uint16(port)` is below 65536, equals the port when the port is in range, and otherwise differs from it by a multiple of 65536. |
| Naming.AddrPortFrom | main.go:115 | The listen address keeps the configured IP. Its port is below 65536 and differs from the configured port by a multiple of 65536 (the 16-bit cut). An in-range port is kept unchanged. |
| Naming.AddrPortPort | main.go:117-122 | The text after the last ':' of the `addr:port` text reads back as the listen port. |
| Naming.LocalSourceURL | main.go:122 | Unless the file's last element is "/", the URL handed to the job ends in the local file's last element, the name the copy has in the server's root. |
| Naming.CopyServedUnderURL | main.go:108-122 | Unless the file's last element is "/", the copy target is exactly the server's root directory, a slash, and the last element of the URL handed to the job. |
| Poller.FirstDecisive | main.go:212-224 | Gives the index of the fetch that ends polling: every earlier answer is a status without exactly one success, and the answer at that index is not. |
| Poller.PollOutcomeOf | main.go:212-224 | Polling is still waiting exactly when no answer is decisive, and then it has made one fetch per answer. Otherwise it stops after the first decisive fetch. It exits fatally with exactly the error of that fetch, or returns normally when that fetch reports one success. |
| Poller.WaitForJob | main.go:207-225 | The loop ends as `PollOutcomeOf` says: a normal return, a fatal exit with the fetch error, or still waiting. It reports each pending answer's failure count, in order. |
| Poller.DoneIff | main.go:217-220 | Polling returns normally after fetch k+1 exactly when answer k is the first to report one success and no fetch before it failed. |
| Poller.AbortedIff | main.go:213-216 | Polling exits fatally with error e after fetch k+1 exactly when answer k is that fetch error and every earlier answer was pending. |
| Poller.StillWaitingIff | main.go:212-224 | Polling is still going after the given answers exactly when every one of them is pending. |
| Poller.LaterObservationsIgnored | main.go:212-224 | Once polling has ended, later answers change neither the outcome nor the reported progress. |
| Display.FinishText | main.go:250-253 | The completion column is "n/a" exactly when the job has no completion time. Otherwise it is that time's `2006-01-02 15:04:05` rendering. |
| Display.ListRowOf | main.go:281-287 | A summary row shows `<namespace>/<name>`, the job's failure count, whether it succeeded exactly once, and the completion time's `2006-01-02 15:04:05` rendering when it has one, "n/a" exactly when it has none. |
| Display.ListJobs | main.go:277-288 | The loop writes exactly the rows `ListRows` gives, in list order. |
| Display.ListAllShowsEveryJob | main.go:277-288 | With `all`, there is one row per job, and row i is job i's row. |
| Display.ListSkipsSucceeded | main.go:278-280 | Without `all`, the table is exactly the full table of the jobs that have not succeeded, in their order. |
| Display.ListWithoutAllHasNoSuccess | main.go:278-280 | Without `all`, no row shows a succeeded job. |
| Display.UnfinishedAppend | main.go:278-280 | The filter keeps list order: filtering a concatenation concatenates the filtered parts. |
| Display.UnfinishedMembers | main.go:278-280 | A job survives the filter exactly when it is listed and has not succeeded. |
| Display.ListRowsAppend | main.go:277-288 | The table of a concatenation is the concatenation of the tables. |
| Display.ShowRowOf | main.go:250-257 | A detailed row shows `<namespace>/<name>`, the first env value of the first init container, the first env value of the first container, whether the job succeeded exactly once, and the completion time's `2006-01-02 15:04:05` rendering when it has one, "n/a" exactly when it has none. |
| Display.ShowJob | main.go:249-258 | The loop writes the rows `ShowTable` gives, and stops with an index panic exactly where `ShowTable` does. |
| Display.ShowTablePanicSticks | main.go:254-256 | Once the detailed table has panicked, later jobs change nothing. |
| Display.ShowPanicsIff | main.go:254-256 | The detailed command panics exactly when some listed job lacks the fields it reads. |
| Display.ShowRowsOfWellFormed | main.go:249-258 | When every job has those fields, there is one row per job, in list order. |
| Display.ShowRoundTrip | main.go:254-256 | Whatever status the cluster gives a job built by `newJob`, the detailed row shows the URL and the tag the job was built from. Its name, success and completion columns agree with the summary row. |
| Upload.PollExit | main.go:207-225 | The process returns normally exactly when polling ended in success. It exits fatally exactly when a fetch failed, and then with that fetch's error. |
| Upload.UploadImgRemote | main.go:292-312 | An empty src or tag is rejected with its message before any external call. Otherwise the command makes a client and submits the descriptor built by `newJob` from `cdtool-<stamp>-<suffix>`, the src and the tag. It polls that job only when asked to wait. Each failing call ends the run with that call's error, and nothing follows it. |
| Upload.UploadImgLocal | main.go:92-129 | The command makes exactly the calls, and ends exactly, as `LocalRun` gives. The `Local…` lemmas below state what that run is, branch by branch. |
| Upload.LocalRejectsMissingInputs | main.go:93-98 | An empty file or tag ends the command with its own message before any external call. The file is checked first. |
| Upload.LocalBuildsClientFirst | main.go:99-102 | Once both inputs are given, the first call builds the cluster client. |
| Upload.LocalMakesTempDir | main.go:103-107 | Once the client is built, the second call makes the temporary directory with pattern `<job name>-*`. |
| Upload.LocalCopiesIntoTempDir | main.go:108-113 | Once the directory exists, the third call copies the file to `<dir>/<base(file)>`. |
| Upload.LocalStartsServer | main.go:115-121 | Once the copy succeeds, the fourth call starts the file server on `AddrPortFrom(addr, port)`, rooted at the temporary directory. |
| Upload.LocalServerRootHoldsCopy | main.go:108-117 | Once the copy succeeds, the target of the copy call is the root directory of the file server call, a slash, and the file's last element. |
| Upload.LocalStepFails | main.go:99-126 | The first failing step (client, directory, copy or job creation) ends the run with that step's own error. No call follows it, so no job is submitted unless the copy succeeded. |
| Upload.LocalSubmits | main.go:122-123 | Once the server is started, the fifth call submits the descriptor `newJob` builds from the job name, the URL `LocalSourceURL` gives for that address, and the tag. |
| Upload.LocalPolls | main.go:124-128 | When the job is accepted, the sixth and last call polls it by the upload namespace and the job name, and the process ends as polling does. |
| Upload.RemoteJobRoundTrip | main.go:292-312 | The submitted job's name reads back as the stamp and suffix and is a valid object name. The detailed table shows the job's src and tag, whatever status the cluster reports. |
| Upload.LocalJobURLNamesCopy | main.go:108-122 | The detailed table of the submitted local job shows `http://<addr:port>/<base(file)>` and the tag. The URL's last element is the file's and the copy's, and the copy lies directly in the server's root under that element. |

## Left out

- Cluster client: building it, and the `Create`, `Get` and `List` calls with their label and name selectors, are external. For the upload commands the model takes their results as parameters: the `Cluster` errors and the sequence of fetch answers. `Display.ListJobs` and `Display.ShowJob` take only the listed jobs. Their fatal exits when the client cannot be built or `List` fails (main.go:229-245, 263-273) are not modelled.
- `getClnt` panics on a bad kubeconfig and returns an error only from client construction. The model treats both as a failed client step that ends the command.
- Upload.UploadImgLocal: does not model what happens after the file server is started. The server runs in a goroutine that never returns unless it fails. Its error goes into the variable `err` (main.go:117), which the main flow also assigns and reads after `Create` (main.go:123-124). So a bind failure may exit the process, may be overwritten by `Create`'s result, or may make the main flow exit although `Create` succeeded. The model records only that the server is started.
- The temporary directory and the `cp` subprocess: the model takes their results as parameters. The directory name is given, and the model does not check it against the `<name>-*` pattern.
- Clock and randomness: `time.Now`, its `060102-150405` rendering and `rand.String(4)` are parameters. The stamp is any 13-character text of that layout. The suffix is any four lower-case letters or digits, which is wider than the generator's real alphabet.
- `time.Sleep`, the elapsed-time text and the progress printing are not modelled. Progress is the list of failure counts reported.
- The completion time is held as its `time.DateTime` rendering. The time-formatting code is not modelled.
- `filepath.Join` path cleaning: the copy target is modelled as `dir + "/" + base`, without cleaning the joined path.
- Log lines such as "job … created in namespace …", tabwriter column layout and header lines are not modelled.
- Command-line parsing and `defCLI` kubeconfig discovery are not modelled. The namespace and image defaults appear as `JobSpec.DefaultUpload`. The default HTTP port 8899 (main.go:58,73) is not: the local command takes the port as a parameter.
- `ReturnPointerVal(true)` is modelled as `Some(true)`.
- Naming.LocalSourceURL and Naming.CopyTarget: the shared last element is stated only for files whose last element is not "/". For a path of slashes only, the URL ends in "//", so its last element is the host's and not the file's; `cp` cannot copy such a path anyway.
- Upload.LocalJobURLNamesCopy: shows only that the URL's last element, as text, is the copied file's name. Whether the download fetches that file is not modelled. The URL is written with `%v` and not percent-encoded (main.go:122), and the init container expands `$URL` unquoted inside `sh -c` (main.go:145). So a name holding `#`, `?`, `%`, a space or other shell or URL syntax asks the server for another path. For example, `disk#1.img` is requested as `/disk`.
