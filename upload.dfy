/** The two upload commands. Each checks its inputs, makes a cluster client,
    builds the job descriptor, submits it and (always for a local file, on request
    for a remote one) polls it to completion. The local command first copies the
    file into a fresh temporary directory and starts a file server on it.

    Everything outside the tool is a parameter: the clock reading and random
    suffix (`Host`), whether the temporary directory and the copy succeed, and
    what the cluster answers (`Cluster`). A run is the sequence of external
    calls the command makes and the way the process ends. */
module Upload {
  import opened Kube
  import opened JobSpec
  import opened Naming
  import opened Poller
  import Display

  /** An external call made by a command, in the order made. */
  datatype Call =
    | BuildClient
    | MakeTempDir(pattern: string)
    | CopyFile(from: string, to: string)
    | StartServer(listen: AddrPort, root: string)
    | CreateJob(job: Job)
    | WaitFor(namespace: string, name: string)

  /** How the process ends: a fatal log with its message, a normal return, or
      (when the observations given run out) still polling. */
  datatype Exit = Fatal(reason: string) | Completed | StillPolling

  datatype Run = Run(calls: seq<Call>, exit: Exit)

  datatype TempDirResult = TempDirFailed(err: string) | TempDirMade(path: string)

  /** The operator's machine: the clock reading and random suffix the job name
      is made from, and what creating the temporary directory and copying the
      file into it return. */
  datatype Host = Host(now: Stamp, suffix: Suffix, tempDir: TempDirResult, copyErr: Option<string>)

  /** The cluster: whether a client can be made, whether the job is accepted,
      and what the successive status fetches return. */
  datatype Cluster = Cluster(clientErr: Option<string>, createErr: Option<string>, observations: seq<Observation>)

  /** How the process ends once polling ends. */
  function PollExit(o: PollOutcome): (e: Exit)
    ensures e == Completed <==> o.Done?
    ensures e.Fatal? <==> o.Aborted?
    ensures o.Aborted? ==> e == Fatal(o.err)
    ensures e == StillPolling <==> o.StillWaiting?
  {
    match o
    case Done(_) => Completed
    case Aborted(_, err) => Fatal(err)
    case StillWaiting(_) => StillPolling
  }

  // ---------------------------------------------------------------------------
  // Upload from a remote URL
  // ---------------------------------------------------------------------------

  /** The remote-upload command. A missing source or tag ends it before any
      external call; otherwise it makes a client, submits the descriptor for the
      source and tag under the name made from the clock reading and suffix, and,
      when asked to wait, polls that job. Any failing call ends it with that
      call's error. */
  method UploadImgRemote(cfg: UploadConfig, src: string, tag: string, wait: bool, host: Host, cluster: Cluster)
    returns (run: Run)
    ensures src == "" ==> run == Run([], Fatal("src is not specified"))
    ensures src != "" && tag == "" ==> run == Run([], Fatal("tag is not specified"))
    ensures src != "" && tag != "" ==> |run.calls| >= 1 && run.calls[0] == BuildClient
    ensures |run.calls| == 1 ==> cluster.clientErr.Some? && run.exit == Fatal(cluster.clientErr.value)
    ensures |run.calls| >= 2 <==> src != "" && tag != "" && cluster.clientErr.None?
    ensures |run.calls| >= 2 ==>
      run.calls[1] == CreateJob(NewJob(cfg, JobName(host.now, host.suffix), src, tag))
    ensures |run.calls| == 2 ==>
      run.exit == (if cluster.createErr.Some? then Fatal(cluster.createErr.value) else Completed)
    ensures |run.calls| == 3 <==> |run.calls| >= 2 && cluster.createErr.None? && wait
    ensures |run.calls| == 3 ==>
      run.calls[2] == WaitFor(cfg.namespace, JobName(host.now, host.suffix)) &&
      run.exit == PollExit(PollOutcomeOf(cluster.observations))
    ensures |run.calls| <= 3
  {
    if src == "" {
      return Run([], Fatal("src is not specified"));
    }
    if tag == "" {
      return Run([], Fatal("tag is not specified"));
    }
    if cluster.clientErr.Some? {
      return Run([BuildClient], Fatal(cluster.clientErr.value));
    }
    var job := NewJob(cfg, JobName(host.now, host.suffix), src, tag);
    if cluster.createErr.Some? {
      return Run([BuildClient, CreateJob(job)], Fatal(cluster.createErr.value));
    }
    if !wait {
      return Run([BuildClient, CreateJob(job)], Completed);
    }
    var outcome, _ := WaitForJob(cluster.observations);
    run := Run([BuildClient, CreateJob(job), WaitFor(job.meta.namespace, job.meta.name)], PollExit(outcome));
  }

  // ---------------------------------------------------------------------------
  // Upload from a local file
  // ---------------------------------------------------------------------------

  /** How far the local command gets before it ends: 0 when the file or the
      tag is missing, and one more for each of the client, the temporary
      directory, the copy and the job creation that succeeds. */
  function LocalProgress(file: string, tag: string, host: Host, cluster: Cluster): nat {
    if file == "" || tag == "" then 0
    else if cluster.clientErr.Some? then 1
    else if host.tempDir.TempDirFailed? then 2
    else if host.copyErr.Some? then 3
    else if cluster.createErr.Some? then 4
    else 5
  }

  /** The run of the local-upload command, given what the host and the cluster
      answer: the calls it makes in order and how the process ends. */
  function LocalRun(cfg: UploadConfig, file: string, tag: string, addr: ListenAddr, port: int, host: Host, cluster: Cluster): Run {
    if file == "" then Run([], Fatal("local image file not specified"))
    else if tag == "" then Run([], Fatal("tag is not specified"))
    else if cluster.clientErr.Some? then Run([BuildClient], Fatal(cluster.clientErr.value))
    else
      var jobName := JobName(host.now, host.suffix);
      var mk := MakeTempDir(jobName + "-*");
      match host.tempDir
      case TempDirFailed(err) => Run([BuildClient, mk], Fatal(err))
      case TempDirMade(tmpDir) =>
        var copy := CopyFile(file, CopyTarget(tmpDir, file));
        if host.copyErr.Some? then Run([BuildClient, mk, copy], Fatal(host.copyErr.value))
        else
          var listenAddr := AddrPortFrom(addr, port);
          var serve := StartServer(listenAddr, tmpDir);
          var job := NewJob(cfg, jobName, LocalSourceURL(listenAddr, file), tag);
          if cluster.createErr.Some? then
            Run([BuildClient, mk, copy, serve, CreateJob(job)], Fatal(cluster.createErr.value))
          else
            Run([BuildClient, mk, copy, serve, CreateJob(job), WaitFor(job.meta.namespace, job.meta.name)],
                PollExit(PollOutcomeOf(cluster.observations)))
  }

  /** The local-upload command. A missing file or tag ends it before any
      external call. Otherwise it makes a client, makes a temporary directory
      named after the job, copies the file into it, starts the file server on
      it, submits the descriptor whose URL ends in the copied file's name on
      that server, and polls the job. Any failing call ends it with that call's error, so no
      job is submitted unless the file was copied and the server started. */
  method UploadImgLocal(cfg: UploadConfig, file: string, tag: string, addr: ListenAddr, port: int, host: Host, cluster: Cluster)
    returns (run: Run)
    ensures run == LocalRun(cfg, file, tag, addr, port, host, cluster)
  {
    if file == "" {
      return Run([], Fatal("local image file not specified"));
    }
    if tag == "" {
      return Run([], Fatal("tag is not specified"));
    }
    if cluster.clientErr.Some? {
      return Run([BuildClient], Fatal(cluster.clientErr.value));
    }
    var jobName := JobName(host.now, host.suffix);
    var mk := MakeTempDir(jobName + "-*");
    if host.tempDir.TempDirFailed? {
      return Run([BuildClient, mk], Fatal(host.tempDir.err));
    }
    var tmpDir := host.tempDir.path;
    var copy := CopyFile(file, CopyTarget(tmpDir, file));
    if host.copyErr.Some? {
      return Run([BuildClient, mk, copy], Fatal(host.copyErr.value));
    }
    var listenAddr := AddrPortFrom(addr, port);
    var serve := StartServer(listenAddr, tmpDir);
    var job := NewJob(cfg, jobName, LocalSourceURL(listenAddr, file), tag);
    if cluster.createErr.Some? {
      return Run([BuildClient, mk, copy, serve, CreateJob(job)], Fatal(cluster.createErr.value));
    }
    var outcome, _ := WaitForJob(cluster.observations);
    run := Run([BuildClient, mk, copy, serve, CreateJob(job), WaitFor(job.meta.namespace, job.meta.name)],
               PollExit(outcome));
  }

  /** A missing file or tag ends the local command with its message before any
      external call; the file is checked first. */
  lemma LocalRejectsMissingInputs(cfg: UploadConfig, file: string, tag: string, addr: ListenAddr, port: int, host: Host, cluster: Cluster)
    requires LocalProgress(file, tag, host, cluster) == 0
    ensures LocalRun(cfg, file, tag, addr, port, host, cluster).calls == []
    ensures LocalRun(cfg, file, tag, addr, port, host, cluster).exit ==
      Fatal(if file == "" then "local image file not specified" else "tag is not specified")
  {
  }

  /** Once both inputs are given, the first call builds the cluster client. */
  lemma LocalBuildsClientFirst(cfg: UploadConfig, file: string, tag: string, addr: ListenAddr, port: int, host: Host, cluster: Cluster)
    requires LocalProgress(file, tag, host, cluster) >= 1
    ensures |LocalRun(cfg, file, tag, addr, port, host, cluster).calls| >= 1
    ensures LocalRun(cfg, file, tag, addr, port, host, cluster).calls[0] == BuildClient
  {
  }

  /** Once the client is built, the second call makes the temporary directory
      named after the job. */
  lemma LocalMakesTempDir(cfg: UploadConfig, file: string, tag: string, addr: ListenAddr, port: int, host: Host, cluster: Cluster)
    requires LocalProgress(file, tag, host, cluster) >= 2
    ensures |LocalRun(cfg, file, tag, addr, port, host, cluster).calls| >= 2
    ensures LocalRun(cfg, file, tag, addr, port, host, cluster).calls[1] == MakeTempDir(JobName(host.now, host.suffix) + "-*")
  {
    assert file != "" && tag != "" && cluster.clientErr.None?;
  }

  /** Once the directory is made, the third call copies the file into it under
      its last element. */
  lemma LocalCopiesIntoTempDir(cfg: UploadConfig, file: string, tag: string, addr: ListenAddr, port: int, host: Host, cluster: Cluster)
    requires LocalProgress(file, tag, host, cluster) >= 3
    ensures |LocalRun(cfg, file, tag, addr, port, host, cluster).calls| >= 3
    ensures LocalRun(cfg, file, tag, addr, port, host, cluster).calls[2] == CopyFile(file, CopyTarget(host.tempDir.path, file))
  {
    assert file != "" && tag != "" && cluster.clientErr.None? && host.tempDir.TempDirMade?;
  }

  /** Once the copy succeeds, the fourth call starts the file server on the
      16-bit-cut address, rooted at the temporary directory. */
  lemma LocalStartsServer(cfg: UploadConfig, file: string, tag: string, addr: ListenAddr, port: int, host: Host, cluster: Cluster)
    requires LocalProgress(file, tag, host, cluster) >= 4
    ensures |LocalRun(cfg, file, tag, addr, port, host, cluster).calls| >= 4
    ensures LocalRun(cfg, file, tag, addr, port, host, cluster).calls[3] == StartServer(AddrPortFrom(addr, port), host.tempDir.path)
  {
    assert file != "" && tag != "" && cluster.clientErr.None? && host.tempDir.TempDirMade? && host.copyErr.None?;
  }

  /** The file server is rooted at the directory the file was copied into:
      the copy's target is the server's root, a slash and the file's last
      element. */
  lemma LocalServerRootHoldsCopy(cfg: UploadConfig, file: string, tag: string, addr: ListenAddr, port: int, host: Host, cluster: Cluster)
    requires LocalProgress(file, tag, host, cluster) >= 4
    ensures |LocalRun(cfg, file, tag, addr, port, host, cluster).calls| >= 4
    ensures LocalRun(cfg, file, tag, addr, port, host, cluster).calls[2].CopyFile? && LocalRun(cfg, file, tag, addr, port, host, cluster).calls[3].StartServer?
    ensures LocalRun(cfg, file, tag, addr, port, host, cluster).calls[2].to == LocalRun(cfg, file, tag, addr, port, host, cluster).calls[3].root + "/" + Base(file)
  {
    assert file != "" && tag != "" && cluster.clientErr.None? && host.tempDir.TempDirMade? && host.copyErr.None?;
  }

  /** The first failing step ends the run with that step's own error, and no
      call follows it: a failed client, directory or copy is the last call, and
      a refused job leaves the submission as the last call. */
  lemma LocalStepFails(cfg: UploadConfig, file: string, tag: string, addr: ListenAddr, port: int, host: Host, cluster: Cluster)
    requires 1 <= LocalProgress(file, tag, host, cluster) <= 4
    ensures |LocalRun(cfg, file, tag, addr, port, host, cluster).calls| ==
      (if LocalProgress(file, tag, host, cluster) == 4 then 5 else LocalProgress(file, tag, host, cluster))
    ensures LocalRun(cfg, file, tag, addr, port, host, cluster).exit == Fatal(
      if LocalProgress(file, tag, host, cluster) == 1 then cluster.clientErr.value
      else if LocalProgress(file, tag, host, cluster) == 2 then host.tempDir.err
      else if LocalProgress(file, tag, host, cluster) == 3 then host.copyErr.value
      else cluster.createErr.value)
  {
  }

  /** Once the file server is started, the fifth call submits the descriptor
      built from the job name, the URL of the copied file on that server, and
      the tag. */
  lemma LocalSubmits(cfg: UploadConfig, file: string, tag: string, addr: ListenAddr, port: int, host: Host, cluster: Cluster)
    requires LocalProgress(file, tag, host, cluster) >= 4
    ensures |LocalRun(cfg, file, tag, addr, port, host, cluster).calls| >= 5
    ensures LocalRun(cfg, file, tag, addr, port, host, cluster).calls[4] ==
      CreateJob(NewJob(cfg, JobName(host.now, host.suffix), LocalSourceURL(AddrPortFrom(addr, port), file), tag))
  {
    // The two cases (the job refused, the job accepted) are split only to
    // keep the proof small; each follows from `LocalRun` directly.
    if LocalProgress(file, tag, host, cluster) == 4 {
      assert cluster.createErr.Some?;
    } else {
      assert cluster.createErr.None?;
    }
  }

  /** When the job is accepted, the last call polls it by its namespace and name,
      and the process ends as polling does. */
  lemma LocalPolls(cfg: UploadConfig, file: string, tag: string, addr: ListenAddr, port: int, host: Host, cluster: Cluster)
    requires LocalProgress(file, tag, host, cluster) == 5
    ensures |LocalRun(cfg, file, tag, addr, port, host, cluster).calls| == 6
    ensures LocalRun(cfg, file, tag, addr, port, host, cluster).calls[5] == WaitFor(cfg.namespace, JobName(host.now, host.suffix))
    ensures LocalRun(cfg, file, tag, addr, port, host, cluster).exit == PollExit(PollOutcomeOf(cluster.observations))
  {
  }

  // ---------------------------------------------------------------------------
  // What a submitted job carries
  // ---------------------------------------------------------------------------

  /** The job the remote command submits carries its name, source and tag: the
      name reads back as the clock reading and suffix and is a valid object
      name, and whatever status the cluster gives the job the detailed table
      shows the source URL and the tag. */
  lemma RemoteJobRoundTrip(cfg: UploadConfig, src: string, tag: string, now: Stamp, suffix: Suffix, st: JobStatus)
    ensures var j := NewJob(cfg, JobName(now, suffix), src, tag).(status := st);
      ParseJobName(j.meta.name) == Some((now, suffix)) && IsDnsLabel(j.meta.name) &&
      Display.HasDisplayFields(j) &&
      Display.ShowRowOf(j).src == src && Display.ShowRowOf(j).tag == tag
  {
    JobNameRoundTrip(now, suffix);
    JobNameIsDnsLabel(now, suffix);
    Display.ShowRoundTrip(cfg, JobName(now, suffix), src, tag, st);
  }

  /** The URL of the job the local command submits names the copy: the
      detailed table shows "http://" + the server's `addr:port` + "/" + a last
      element that is both the file's and the copy's, and the copy lies
      directly in the server's root directory under that element. */
  lemma LocalJobURLNamesCopy(cfg: UploadConfig, file: string, tag: string, ap: AddrPort,
                            tmpDir: string, now: Stamp, suffix: Suffix, st: JobStatus)
    requires Base(file) != "/"
    ensures var url := LocalSourceURL(ap, file);
      var j := NewJob(cfg, JobName(now, suffix), url, tag).(status := st);
      Display.HasDisplayFields(j) &&
      Display.ShowRowOf(j).src == "http://" + AddrPortText(ap) + "/" + Base(file) &&
      Base(Display.ShowRowOf(j).src) == Base(CopyTarget(tmpDir, file)) == Base(file) &&
      CopyTarget(tmpDir, file) == tmpDir + "/" + Base(Display.ShowRowOf(j).src) &&
      Display.ShowRowOf(j).tag == tag
  {
    Display.ShowRoundTrip(cfg, JobName(now, suffix), LocalSourceURL(ap, file), tag, st);
  }
}
