/** The completion poller: fetch the job's status again and again until it reports
    one success. The cluster's answers are given in advance as the sequence of
    observations the successive fetches would return; the sleep between fetches
    and the elapsed-time text are not modelled. */
module Poller {
  import opened Kube

  /** What one fetch of the job returns: an error, or the job's current status. */
  datatype Observation = FetchError(err: string) | Observed(status: JobStatus)

  /** An observation after which the poller fetches again. */
  predicate Pending(o: Observation) {
    o.Observed? && o.status.succeeded != 1
  }

  /** How polling over a finite run of observations ends, and after how many
      fetches: the job completed, a fetch failed and the process exits, or every
      observation was pending and the poller is still waiting. */
  datatype PollOutcome =
    | Done(fetches: nat)
    | Aborted(fetches: nat, err: string)
    | StillWaiting(fetches: nat)

  /** The index of the first observation that is not pending (`|obs|` when there
      is none): the fetch that ends polling. */
  function FirstDecisive(obs: seq<Observation>): (k: nat)
    ensures k <= |obs|
    ensures forall j :: 0 <= j < k ==> Pending(obs[j])
    ensures k < |obs| ==> !Pending(obs[k])
  {
    if obs == [] || !Pending(obs[0]) then 0 else 1 + FirstDecisive(obs[1..])
  }

  /** How the poller ends on the observations `obs`. */
  function PollOutcomeOf(obs: seq<Observation>): (o: PollOutcome)
    ensures o.StillWaiting? <==> FirstDecisive(obs) == |obs|
    ensures o.StillWaiting? ==> o.fetches == |obs|
    ensures !o.StillWaiting? ==> o.fetches == FirstDecisive(obs) + 1 <= |obs|
    ensures o.Aborted? ==> obs[o.fetches - 1] == FetchError(o.err)
    ensures o.Done? ==> obs[o.fetches - 1].Observed? && obs[o.fetches - 1].status.succeeded == 1
  {
    var k := FirstDecisive(obs);
    if k == |obs| then StillWaiting(|obs|)
    else match obs[k]
      case FetchError(e) => Aborted(k + 1, e)
      case Observed(_) => Done(k + 1)
  }

  /** The failure counts the poller reports, one per fetch that did not end
      polling. */
  function ProgressOf(obs: seq<Observation>): seq<int>
  {
    var k := FirstDecisive(obs);
    seq(k, i requires 0 <= i < k => obs[i].status.failed)
  }

  /** Polling of the job whose successive fetches return `obs`: a fatal exit on
      the first fetch error, a return on the first status with exactly one
      success, and otherwise one progress report with the failure count before
      the next fetch. */
  method WaitForJob(obs: seq<Observation>) returns (outcome: PollOutcome, progress: seq<int>)
    ensures outcome == PollOutcomeOf(obs)
    ensures progress == ProgressOf(obs)
  {
    progress := [];
    var i := 0;
    while i < |obs|
      invariant 0 <= i <= |obs|
      invariant forall j :: 0 <= j < i ==> Pending(obs[j])
      invariant |progress| == i
      invariant forall j :: 0 <= j < i ==> progress[j] == obs[j].status.failed
    {
      match obs[i] {
        case FetchError(e) =>
          outcome := Aborted(i + 1, e);
          return;
        case Observed(status) =>
          if status.succeeded == 1 {
            outcome := Done(i + 1);
            return;
          }
          progress := progress + [status.failed];
      }
      i := i + 1;
    }
    outcome := StillWaiting(|obs|);
  }

  /** Polling returns normally after fetch `k + 1` exactly when observation `k`
      is the first with one success and every earlier one was pending. */
  lemma DoneIff(obs: seq<Observation>, k: nat)
    ensures PollOutcomeOf(obs) == Done(k + 1) <==>
      (k < |obs| && obs[k].Observed? && obs[k].status.succeeded == 1 &&
       forall j :: 0 <= j < k ==> Pending(obs[j]))
  {
  }

  /** A fetch error aborts polling exactly when every earlier observation was
      pending; no later observation is used. */
  lemma AbortedIff(obs: seq<Observation>, k: nat, e: string)
    ensures PollOutcomeOf(obs) == Aborted(k + 1, e) <==>
      (k < |obs| && obs[k] == FetchError(e) && forall j :: 0 <= j < k ==> Pending(obs[j]))
  {
  }

  /** The poller keeps waiting exactly when every observation is pending. */
  lemma StillWaitingIff(obs: seq<Observation>)
    ensures PollOutcomeOf(obs).StillWaiting? <==> forall j :: 0 <= j < |obs| ==> Pending(obs[j])
  {
  }

  /** Observations after the one that ends polling change nothing. */
  lemma LaterObservationsIgnored(obs: seq<Observation>, later: seq<Observation>)
    requires !PollOutcomeOf(obs).StillWaiting?
    ensures PollOutcomeOf(obs + later) == PollOutcomeOf(obs)
    ensures ProgressOf(obs + later) == ProgressOf(obs)
  {
    var d := FirstDecisive(obs);
    var e := FirstDecisive(obs + later);
    assert (obs + later)[d] == obs[d];
  }
}
