/** The two inspection commands. The cluster lists the tool's jobs (the label and
    name selectors are applied by the cluster and are not modelled); each command
    walks that list and writes one table row per job. Rows are records here; the
    column layout is not modelled. */
module Display {
  import opened Kube
  import opened JobSpec

  /** A row of the summary table: "namespace/name", failures, whether the job
      succeeded, and its completion time. */
  datatype ListRow = ListRow(name: string, failed: int, success: bool, finish: string)

  /** A row of the detailed table: adds the source URL and the destination tag. */
  datatype ShowRow = ShowRow(name: string, src: string, tag: string, succeed: bool, finish: string)

  /** The completion column: the formatted completion time, or "n/a" when the
      job has none. */
  function FinishText(t: Option<DateTime>): (r: string)
    ensures r == "n/a" <==> t.None?
    ensures t.Some? ==> r == t.value && IsDateTimeText(r)
  {
    if t.Some? then t.value else "n/a"
  }

  function QualifiedName(j: Job): string {
    j.meta.namespace + "/" + j.meta.name
  }

  /** The summary row of a job: its qualified name, failure count, whether it
      succeeded and its completion column. */
  function ListRowOf(j: Job): (r: ListRow)
    ensures r.name == j.meta.namespace + "/" + j.meta.name
    ensures r.failed == j.status.failed
    ensures r.success <==> j.status.succeeded == 1
    ensures r.finish == "n/a" <==> j.status.completionTime.None?
    ensures j.status.completionTime.Some? ==> r.finish == j.status.completionTime.value
  {
    ListRow(QualifiedName(j), j.status.failed, j.status.succeeded == 1, FinishText(j.status.completionTime))
  }

  /** True when the summary table shows `j`: always with `all`, otherwise only
      when it has not succeeded. */
  predicate Listed(j: Job, all: bool) {
    all || j.status.succeeded != 1
  }

  /** The summary table for the listed jobs, in list order. */
  function ListRows(jobs: seq<Job>, all: bool): seq<ListRow> {
    if jobs == [] then []
    else
      var last := jobs[|jobs| - 1];
      ListRows(jobs[..|jobs| - 1], all) + (if Listed(last, all) then [ListRowOf(last)] else [])
  }

  /** The jobs that have not succeeded, in list order. */
  function Unfinished(jobs: seq<Job>): seq<Job> {
    if jobs == [] then []
    else
      var last := jobs[|jobs| - 1];
      Unfinished(jobs[..|jobs| - 1]) + (if last.status.succeeded != 1 then [last] else [])
  }

  /** The summary command: one row per job, skipping succeeded jobs unless `all`. */
  method ListJobs(jobs: seq<Job>, all: bool) returns (rows: seq<ListRow>)
    ensures rows == ListRows(jobs, all)
  {
    rows := [];
    for i := 0 to |jobs|
      invariant rows == ListRows(jobs[..i], all)
    {
      assert jobs[..i + 1][..i] == jobs[..i];
      var job := jobs[i];
      if job.status.succeeded == 1 && !all {
        continue;
      }
      rows := rows + [ListRowOf(job)];
    }
    assert jobs[..|jobs|] == jobs;
  }

  /** With `all`, every job is shown, one row each, in list order. */
  lemma {:induction false} ListAllShowsEveryJob(jobs: seq<Job>)
    ensures |ListRows(jobs, true)| == |jobs|
    ensures forall i :: 0 <= i < |jobs| ==> ListRows(jobs, true)[i] == ListRowOf(jobs[i])
  {
    if jobs != [] {
      ListAllShowsEveryJob(jobs[..|jobs| - 1]);
    }
  }

  /** Without `all`, the table is exactly the full table of the jobs that have
      not succeeded. */
  lemma {:induction false} ListSkipsSucceeded(jobs: seq<Job>)
    ensures ListRows(jobs, false) == ListRows(Unfinished(jobs), true)
  {
    if jobs != [] {
      var front, last := jobs[..|jobs| - 1], jobs[|jobs| - 1];
      ListSkipsSucceeded(front);
      ListRowsAppend(Unfinished(front), if last.status.succeeded != 1 then [last] else [], true);
    }
  }

  /** The tables of two lists one after the other are the table of the two lists
      concatenated. */
  lemma {:induction false} ListRowsAppend(a: seq<Job>, b: seq<Job>, all: bool)
    ensures ListRows(a + b, all) == ListRows(a, all) + ListRows(b, all)
  {
    if b != [] {
      var front := b[..|b| - 1];
      ListRowsAppend(a, front, all);
      assert (a + b)[..|a + b| - 1] == a + front;
    } else {
      assert a + b == a;
    }
  }

  /** Without `all`, no row shows a succeeded job. */
  lemma {:induction false} ListWithoutAllHasNoSuccess(jobs: seq<Job>)
    ensures forall r :: r in ListRows(jobs, false) ==> !r.success
  {
    if jobs != [] {
      ListWithoutAllHasNoSuccess(jobs[..|jobs| - 1]);
    }
  }

  /** `Unfinished` keeps the order of the list: it distributes over
      concatenation, and a single job is kept exactly when it has not succeeded. */
  lemma {:induction false} UnfinishedAppend(a: seq<Job>, b: seq<Job>)
    ensures Unfinished(a + b) == Unfinished(a) + Unfinished(b)
  {
    if b != [] {
      var front := b[..|b| - 1];
      UnfinishedAppend(a, front);
      assert (a + b)[..|a + b| - 1] == a + front;
    } else {
      assert a + b == a;
    }
  }

  /** `Unfinished` keeps precisely the jobs of the list that have not succeeded. */
  lemma {:induction false} UnfinishedMembers(jobs: seq<Job>, j: Job)
    ensures j in Unfinished(jobs) <==> j in jobs && j.status.succeeded != 1
  {
    if jobs != [] {
      var front := jobs[..|jobs| - 1];
      UnfinishedMembers(front, j);
      assert jobs == front + [jobs[|jobs| - 1]];
    }
  }

  // ---------------------------------------------------------------------------
  // The detailed table
  // ---------------------------------------------------------------------------

  /** True when the positions the detailed table reads exist: the first
      environment entry of the first init container and of the first
      container. */
  predicate HasDisplayFields(j: Job) {
    |j.template.initContainers| > 0 && |j.template.initContainers[0].env| > 0 &&
    |j.template.containers| > 0 && |j.template.containers[0].env| > 0
  }

  /** The detailed row of a job: the summary columns, with the source taken
      from the download stage's first variable and the tag from the build
      stage's first variable. */
  function ShowRowOf(j: Job): (r: ShowRow)
    requires HasDisplayFields(j)
    ensures r.name == j.meta.namespace + "/" + j.meta.name
    ensures r.src == j.template.initContainers[0].env[0].value
    ensures r.tag == j.template.containers[0].env[0].value
    ensures r.succeed <==> j.status.succeeded == 1
    ensures r.finish == "n/a" <==> j.status.completionTime.None?
    ensures j.status.completionTime.Some? ==> r.finish == j.status.completionTime.value
  {
    ShowRow(QualifiedName(j),
            j.template.initContainers[0].env[0].value,
            j.template.containers[0].env[0].value,
            j.status.succeeded == 1,
            FinishText(j.status.completionTime))
  }

  /** What the detailed command writes before it ends: the rows it wrote, and
      whether it stopped with an out-of-range index (a job lacking the fields it
      reads). Rows already written are still flushed when it stops. */
  datatype ShowOutcome = ShowOutcome(rows: seq<ShowRow>, panicked: bool)

  function ShowTable(jobs: seq<Job>): ShowOutcome {
    if jobs == [] then ShowOutcome([], false)
    else
      var prev := ShowTable(jobs[..|jobs| - 1]);
      var last := jobs[|jobs| - 1];
      if prev.panicked then prev
      else if !HasDisplayFields(last) then ShowOutcome(prev.rows, true)
      else ShowOutcome(prev.rows + [ShowRowOf(last)], false)
  }

  /** The detailed command: one row per job, reading the source and tag from the
      first environment entries of the two stages. */
  method ShowJob(jobs: seq<Job>) returns (rows: seq<ShowRow>, panicked: bool)
    ensures ShowOutcome(rows, panicked) == ShowTable(jobs)
  {
    rows := [];
    for i := 0 to |jobs|
      invariant ShowTable(jobs[..i]) == ShowOutcome(rows, false)
    {
      assert jobs[..i + 1][..i] == jobs[..i];
      var job := jobs[i];
      if !HasDisplayFields(job) {
        panicked := true;
        assert ShowTable(jobs[..i + 1]).panicked;
        ShowTablePanicSticks(jobs, i + 1);
        return;
      }
      rows := rows + [ShowRowOf(job)];
    }
    assert jobs[..|jobs|] == jobs;
    panicked := false;
  }

  /** Once the table stops, later jobs change nothing. */
  lemma {:induction false} ShowTablePanicSticks(jobs: seq<Job>, n: nat)
    requires n <= |jobs| && ShowTable(jobs[..n]).panicked
    ensures ShowTable(jobs) == ShowTable(jobs[..n])
    decreases |jobs| - n
  {
    if n < |jobs| {
      assert jobs[..n + 1][..n] == jobs[..n];
      ShowTablePanicSticks(jobs, n + 1);
    } else {
      assert jobs[..n] == jobs;
    }
  }

  /** The detailed command stops exactly when some listed job lacks the fields
      it reads. */
  lemma {:induction false} ShowPanicsIff(jobs: seq<Job>)
    ensures ShowTable(jobs).panicked <==> exists i :: 0 <= i < |jobs| && !HasDisplayFields(jobs[i])
  {
    if jobs != [] {
      var front := jobs[..|jobs| - 1];
      ShowPanicsIff(front);
      if exists i :: 0 <= i < |front| && !HasDisplayFields(front[i]) {
        var i :| 0 <= i < |front| && !HasDisplayFields(front[i]);
        assert jobs[i] == front[i];
      }
      if exists i :: 0 <= i < |jobs| && !HasDisplayFields(jobs[i]) {
        var i :| 0 <= i < |jobs| && !HasDisplayFields(jobs[i]);
        if i < |front| {
          assert front[i] == jobs[i];
        }
      }
    }
  }

  /** When every listed job has the fields, the detailed table has one row per
      job, in list order. */
  lemma {:induction false} ShowRowsOfWellFormed(jobs: seq<Job>)
    requires forall i :: 0 <= i < |jobs| ==> HasDisplayFields(jobs[i])
    ensures !ShowTable(jobs).panicked && |ShowTable(jobs).rows| == |jobs|
    ensures forall i :: 0 <= i < |jobs| ==> ShowTable(jobs).rows[i] == ShowRowOf(jobs[i])
  {
    if jobs != [] {
      var front := jobs[..|jobs| - 1];
      assert forall i :: 0 <= i < |front| ==> front[i] == jobs[i];
      ShowRowsOfWellFormed(front);
    }
  }

  /** Round trip: whatever status the cluster has given a job built by `NewJob`,
      the detailed table shows the URL and tag it was built from, and the summary
      and detailed tables agree on name, success and completion time. */
  lemma ShowRoundTrip(cfg: UploadConfig, name: string, url: string, tag: string, st: JobStatus)
    ensures var j := NewJob(cfg, name, url, tag).(status := st);
      HasDisplayFields(j) &&
      ShowRowOf(j) == ShowRow(cfg.namespace + "/" + name, url, tag,
                              ListRowOf(j).success, ListRowOf(j).finish)
  {
  }
}
