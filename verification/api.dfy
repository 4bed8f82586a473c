/** The client of the remote generation service (lib/api.ts): the job
    envelope sent on submission, the status check and the poller that
    waits for a job to finish. Network replies are parameters. */
module Api {
  import opened Util

  /** A JSON value as the workflow template and the replies carry it
      (integral numbers only). */
  datatype Json =
    | JNull
    | JBool(b: bool)
    | JNum(n: int)
    | JStr(s: string)
    | JArr(items: seq<Json>)
    | JObj(fields: map<string, Json>)

  /** The node graph of the workflow template, keyed by node id. */
  type Workflow = map<string, Json>

  /** JavaScript truthiness of a value that may be undefined (`None`). */
  predicate Truthy(v: Option<Json>) {
    match v
    case None => false
    case Some(JNull) => false
    case Some(JBool(b)) => b
    case Some(JNum(n)) => n != 0
    case Some(JStr(s)) => s != ""
    case Some(_) => true
  }

  /** `v.key`, undefined unless `v` is an object holding the key. */
  function Property(v: Json, key: string): Option<Json> {
    if v.JObj? && key in v.fields then Some(v.fields[key]) else None
  }

  function Node(wf: Workflow, node: string): Option<Json> {
    if node in wf then Some(wf[node]) else None
  }

  /** A representative message for the TypeError strict-mode code raises
      when it assigns a property to a primitive value (the runtime's own
      text also names the value). */
  const SeedTypeError: string := "Cannot create property 'seed' on a primitive value"

  /** The node ids whose `inputs.seed` the submission overwrites. */
  const SeedNodes: seq<string> := ["27", "90"]

  /** The node exists and its `inputs` is an object: the seed is written. */
  predicate HasSeedInputs(wf: Workflow, node: string) {
    node in wf && Truthy(Property(wf[node], "inputs")) && wf[node].fields["inputs"].JObj?
  }

  /** The node exists and its `inputs` is a truthy primitive: the
      assignment throws. */
  predicate HasPrimitiveInputs(wf: Workflow, node: string) {
    node in wf && Truthy(Property(wf[node], "inputs"))
    && !wf[node].fields["inputs"].JObj? && !wf[node].fields["inputs"].JArr?
  }

  /** `after` is the node `before` with `inputs.seed` set to `seed`, all
      other fields and inputs as they were. */
  predicate SeedWritten(before: Json, after: Json, seed: int)
    requires before.JObj? && "inputs" in before.fields && before.fields["inputs"].JObj?
  {
    var inputs := before.fields["inputs"].fields;
    && after.JObj?
    && after.fields.Keys == before.fields.Keys
    && (forall k :: k in before.fields && k != "inputs" ==> after.fields[k] == before.fields[k])
    && after.fields["inputs"].JObj?
    && after.fields["inputs"].fields.Keys == inputs.Keys + {"seed"}
    && after.fields["inputs"].fields["seed"] == JNum(seed)
    && (forall k :: k in inputs && k != "seed" ==> after.fields["inputs"].fields[k] == inputs[k])
  }

  /** `if (workflow[node] && workflow[node].inputs) workflow[node].inputs.seed = seed`.
      A named property on an array is dropped when the workflow is
      serialised, so an array `inputs` leaves the sent workflow as it was. */
  function SetSeed(wf: Workflow, node: string, seed: int): (r: Result<Workflow>)
    ensures r.Failure? <==> HasPrimitiveInputs(wf, node)
    ensures r.Success? ==> r.value.Keys == wf.Keys
    ensures r.Success? ==> forall k :: k in wf && k != node ==> r.value[k] == wf[k]
    ensures r.Success? && HasSeedInputs(wf, node) ==> SeedWritten(wf[node], r.value[node], seed)
    ensures r.Success? && !HasSeedInputs(wf, node) ==> r.value == wf
  {
    var target := Node(wf, node);
    if !Truthy(target) then Success(wf)
    else
      var inputs := Property(target.value, "inputs");
      if !Truthy(inputs) then Success(wf)
      else match inputs.value
        case JObj(f) =>
          Success(wf[node := JObj(target.value.fields["inputs" := JObj(f["seed" := JNum(seed)])])])
        case JArr(_) => Success(wf)
        case _ => Failure(SeedTypeError)
  }

  /** The seed patch of `submitJob`: node 27 first, then node 90. */
  function PatchSeeds(wf: Workflow, seed: int): (r: Result<Workflow>)
    ensures r.Failure? <==> HasPrimitiveInputs(wf, "27") || HasPrimitiveInputs(wf, "90")
    ensures r.Success? ==> r.value.Keys == wf.Keys
    ensures r.Success? ==> forall k :: k in wf && k !in SeedNodes ==> r.value[k] == wf[k]
    ensures r.Success? ==> forall n :: n in SeedNodes && HasSeedInputs(wf, n) ==> SeedWritten(wf[n], r.value[n], seed)
    ensures r.Success? ==> forall n :: n in SeedNodes && n in wf && !HasSeedInputs(wf, n) ==> r.value[n] == wf[n]
  {
    match SetSeed(wf, "27", seed)
    case Failure(m) => Failure(m)
    case Success(first) =>
      assert HasSeedInputs(first, "90") == HasSeedInputs(wf, "90");
      assert HasPrimitiveInputs(first, "90") == HasPrimitiveInputs(wf, "90");
      SetSeed(first, "90", seed)
  }

  datatype WorkflowInput = WorkflowInput(node: string, field: string, value: Json, inputType: Option<string>)

  datatype MediaInput = MediaInput(name: string, data: string)

  datatype JobSubmission = JobSubmission(
    workflow: Workflow,
    inputs: seq<WorkflowInput>,
    media: seq<MediaInput>,
    priority: Option<int>)

  /** The body `submitJob` posts, or the error raised while patching the
      seed. The image name the caller passes plays no part in it. */
  function Submission(imageBase64: string, prompt: string, negativePrompt: string, imageName: string,
                      seed: int, wf: Workflow): (r: Result<JobSubmission>)
    ensures r.Success? <==> PatchSeeds(wf, seed).Success?
    ensures r.Success? ==> r.value.workflow == PatchSeeds(wf, seed).value
    ensures r.Success? ==> (
      && |r.value.inputs| == 2
      && (forall i :: 0 <= i < 2 ==> r.value.inputs[i].node == "16" && r.value.inputs[i].inputType == Some("raw"))
      && r.value.inputs[0].field == "positive_prompt" && r.value.inputs[0].value == JStr(prompt)
      && r.value.inputs[1].field == "negative_prompt" && r.value.inputs[1].value == JStr(negativePrompt))
    ensures r.Success? ==> r.value.media == [MediaInput("image.jpg", imageBase64)] && r.value.priority == Some(1)
  {
    match PatchSeeds(wf, seed)
    case Failure(m) => Failure(m)
    case Success(workflow) =>
      Success(JobSubmission(
        workflow,
        [ WorkflowInput("16", "positive_prompt", JStr(prompt), Some("raw")),
          WorkflowInput("16", "negative_prompt", JStr(negativePrompt), Some("raw")) ],
        [ MediaInput("image.jpg", imageBase64) ],
        Some(1)))
  }

  /** Which name the caller gives the image makes no difference to what
      is sent. */
  lemma SubmissionIgnoresImageName(imageBase64: string, prompt: string, negativePrompt: string,
                                   nameA: string, nameB: string, seed: int, wf: Workflow)
    ensures Submission(imageBase64, prompt, negativePrompt, nameA, seed, wf)
         == Submission(imageBase64, prompt, negativePrompt, nameB, seed, wf)
  {
  }

  /** The reply to the submission: its `job_id` and `error` fields (an
      absent field reads as ""), or the error `fetch` raised. */
  datatype SubmitReply = SubmitReply(jobId: string, error: string) | SubmitUnreachable(message: string)

  const NoJobIdMessage: string := "Failed to submit job - no job ID returned"

  /** `submitJob`: the job id the service returned, or the message of the
      error the promise rejects with. */
  function SubmitJob(imageBase64: string, prompt: string, negativePrompt: string, imageName: string,
                     seed: int, wf: Workflow, reply: SubmitReply): (r: Result<string>)
    ensures r.Success? <==>
      Submission(imageBase64, prompt, negativePrompt, imageName, seed, wf).Success?
      && reply.SubmitReply? && reply.jobId != ""
    ensures r.Success? ==> r.value == reply.jobId && r.value != ""
    ensures (Submission(imageBase64, prompt, negativePrompt, imageName, seed, wf).Success?
             && reply.SubmitReply? && reply.jobId == "") ==>
      r == Failure(if reply.error != "" then reply.error else NoJobIdMessage)
  {
    match Submission(imageBase64, prompt, negativePrompt, imageName, seed, wf)
    case Failure(m) => Failure(m)
    case Success(_) =>
      match reply
      case SubmitUnreachable(m) => Failure(m)
      case SubmitReply(jobId, error) =>
        if jobId == "" then Failure(if error != "" then error else NoJobIdMessage)
        else Success(jobId)
  }

  datatype JobState = Queued | Running | Completed | Failed

  datatype JobOutput = JobOutput(filename: string, data: string)

  /** A job's status as the service reports it; absent `outputs` reads as
      the empty list and absent `error` as "". */
  datatype JobStatus = JobStatus(jobId: string, state: JobState, progress: int, outputs: seq<JobOutput>, error: string)

  /** The reply to one status request: the HTTP status line and the parsed
      body, or the error `fetch` or the body parse raised. */
  datatype StatusReply =
    | StatusReply(ok: bool, code: nat, statusText: string, body: JobStatus)
    | StatusUnreachable(message: string)

  /** The id guard shared by `checkJobStatus` and `pollJobCompletion`. */
  predicate ValidJobId(jobId: string) {
    jobId != "" && jobId != "undefined"
  }

  const InvalidJobIdMessage: string := "Invalid job ID"

  /** `checkJobStatus`: the job's status, or the message it rejects with. */
  function CheckJobStatus(jobId: string, reply: StatusReply): (r: Result<JobStatus>)
    ensures !ValidJobId(jobId) ==> r == Failure(InvalidJobIdMessage)
    ensures r.Success? <==> ValidJobId(jobId) && reply.StatusReply? && reply.ok
    ensures r.Success? ==> r.value == reply.body
  {
    if !ValidJobId(jobId) then Failure(InvalidJobIdMessage)
    else match reply
      case StatusUnreachable(m) => Failure(m)
      case StatusReply(ok, code, statusText, body) =>
        if !ok then Failure("Failed to check job status: " + Decimal(code) + " " + statusText)
        else Success(body)
  }

  const MaxRetries: nat := 3
  const InvalidPollMessage: string := "Invalid job ID - cannot poll for status"
  const JobFailedMessage: string := "Job failed"
  const GaveUpMessage: string := "Failed to check job status after " + Decimal(MaxRetries) + " retries"

  /** The poller's promise: still waiting (with the count of consecutive
      failed checks), resolved with the final status, or rejected. */
  datatype PollState = Polling(retryCount: nat) | Resolved(status: JobStatus) | Rejected(message: string)

  /** What the poller does with one status check. Once the promise has
      settled the interval is cleared and further ticks change nothing. */
  function Step(s: PollState, outcome: Result<JobStatus>): (r: PollState)
    ensures !s.Polling? ==> r == s
    ensures s.Polling? && outcome.Success? ==>
      (r.Polling? <==> (outcome.value.state.Queued? || outcome.value.state.Running?))
    ensures s.Polling? && r.Polling? ==> r.retryCount == if outcome.Success? then 0 else s.retryCount + 1
    ensures r.Polling? ==> r.retryCount < MaxRetries
  {
    match s
    case Polling(retryCount) =>
      (match outcome
       case Success(status) =>
         if status.state.Completed? then Resolved(status)
         else if status.state.Failed? then Rejected(if status.error != "" then status.error else JobFailedMessage)
         else Polling(0)
       case Failure(_) =>
         if retryCount + 1 >= MaxRetries then Rejected(GaveUpMessage) else Polling(retryCount + 1))
    case _ => s
  }

  /** The progress handed to `onProgress` by one tick. */
  function Reported(s: PollState, outcome: Result<JobStatus>): seq<int> {
    if s.Polling? && outcome.Success? then [outcome.value.progress] else []
  }

  /** The poller's state after the given sequence of check outcomes. */
  function Run(outcomes: seq<Result<JobStatus>>): PollState {
    if outcomes == [] then Polling(0)
    else Step(Run(outcomes[..|outcomes| - 1]), outcomes[|outcomes| - 1])
  }

  /** Every progress value handed to `onProgress`, in order. */
  function Reports(outcomes: seq<Result<JobStatus>>): seq<int> {
    if outcomes == [] then []
    else
      var before := outcomes[..|outcomes| - 1];
      Reports(before) + Reported(Run(before), outcomes[|outcomes| - 1])
  }

  /** The outcome of each tick's `checkJobStatus` call. */
  function Outcomes(jobId: string, replies: seq<StatusReply>): seq<Result<JobStatus>> {
    seq(|replies|, i requires 0 <= i < |replies| => CheckJobStatus(jobId, replies[i]))
  }

  // ---------------------------------------------------------------------
  // An independent description of the poller's life.

  /** A check after which the poller keeps waiting: it failed, or the job
      is queued or running. */
  predicate Continuing(outcome: Result<JobStatus>) {
    outcome.Failure? || outcome.value.state.Queued? || outcome.value.state.Running?
  }

  predicate ThreeFailures(outcomes: seq<Result<JobStatus>>, i: nat) {
    i + 2 < |outcomes| && outcomes[i].Failure? && outcomes[i + 1].Failure? && outcomes[i + 2].Failure?
  }

  /** No check reported a finished job and no three consecutive checks
      failed. */
  predicate KeepsPolling(outcomes: seq<Result<JobStatus>>) {
    && (forall i :: 0 <= i < |outcomes| ==> Continuing(outcomes[i]))
    && (forall i :: 0 <= i < |outcomes| ==> !ThreeFailures(outcomes, i))
  }

  /** The number of failed checks at the end of the sequence. */
  function TrailingFailures(outcomes: seq<Result<JobStatus>>): (n: nat)
    ensures n <= |outcomes|
    ensures forall i :: |outcomes| - n <= i < |outcomes| ==> outcomes[i].Failure?
    ensures n < |outcomes| ==> outcomes[|outcomes| - 1 - n].Success?
  {
    if outcomes == [] || outcomes[|outcomes| - 1].Success? then 0
    else TrailingFailures(outcomes[..|outcomes| - 1]) + 1
  }

  /** The progress of every successful check, in order. */
  function Progresses(outcomes: seq<Result<JobStatus>>): seq<int> {
    if outcomes == [] then []
    else
      var last := outcomes[|outcomes| - 1];
      Progresses(outcomes[..|outcomes| - 1]) + (if last.Success? then [last.value.progress] else [])
  }

  lemma KeepsPollingPrefix(outcomes: seq<Result<JobStatus>>, k: nat)
    requires k <= |outcomes| && KeepsPolling(outcomes)
    ensures KeepsPolling(outcomes[..k])
  {
    forall i | 0 <= i < k ensures !ThreeFailures(outcomes[..k], i) {
      assert !ThreeFailures(outcomes, i);
    }
  }

  /** While the checks keep the poller waiting, it counts the failures at
      the end (fewer than three) and has reported every successful check's
      progress. */
  lemma {:induction false} PollingWhileContinuing(outcomes: seq<Result<JobStatus>>)
    requires KeepsPolling(outcomes)
    ensures Run(outcomes) == Polling(TrailingFailures(outcomes))
    ensures TrailingFailures(outcomes) < MaxRetries
    ensures Reports(outcomes) == Progresses(outcomes)
  {
    if outcomes != [] {
      var n := |outcomes|;
      var before := outcomes[..n - 1];
      KeepsPollingPrefix(outcomes, n - 1);
      PollingWhileContinuing(before);
      if TrailingFailures(outcomes) >= MaxRetries {
        assert ThreeFailures(outcomes, n - 3);
      }
    }
  }

  /** Once settled, the poller stays settled and reports nothing more. */
  lemma {:induction false} SettledStays(outcomes: seq<Result<JobStatus>>, k: nat)
    requires k <= |outcomes| && !Run(outcomes[..k]).Polling?
    ensures Run(outcomes) == Run(outcomes[..k])
    ensures Reports(outcomes) == Reports(outcomes[..k])
  {
    if k < |outcomes| {
      var before := outcomes[..|outcomes| - 1];
      assert before[..k] == outcomes[..k];
      SettledStays(before, k);
    } else {
      assert outcomes[..k] == outcomes;
    }
  }

  /** The state and the reports of a poller that settled after the first
      `k + 1` checks are final. */
  lemma SettledAfter(outcomes: seq<Result<JobStatus>>, k: nat, state: PollState, reports: seq<int>)
    requires k < |outcomes| && !state.Polling?
    requires Run(outcomes[..k + 1]) == state && Reports(outcomes[..k + 1]) == reports
    ensures Run(outcomes) == state && Reports(outcomes) == reports
  {
    SettledStays(outcomes, k + 1);
  }

  /** One more check after a waiting prefix. */
  lemma StepAfter(outcomes: seq<Result<JobStatus>>, k: nat)
    requires k < |outcomes| && KeepsPolling(outcomes[..k])
    ensures TrailingFailures(outcomes[..k]) < MaxRetries
    ensures Run(outcomes[..k + 1]) == Step(Polling(TrailingFailures(outcomes[..k])), outcomes[k])
    ensures Reports(outcomes[..k + 1]) == if outcomes[k].Success?
      then Progresses(outcomes[..k]) + [outcomes[k].value.progress] else Progresses(outcomes[..k])
  {
    PollingWhileContinuing(outcomes[..k]);
    assert outcomes[..k + 1][..k] == outcomes[..k];
  }

  /** The poller resolves with the first check that reports a completed
      job, provided it was still waiting; ticks after that are ignored. */
  lemma ResolvesOnCompleted(outcomes: seq<Result<JobStatus>>, k: nat)
    requires k < |outcomes| && KeepsPolling(outcomes[..k])
    requires outcomes[k].Success? && outcomes[k].value.state.Completed?
    ensures Run(outcomes) == Resolved(outcomes[k].value)
    ensures Reports(outcomes) == Progresses(outcomes[..k]) + [outcomes[k].value.progress]
  {
    StepAfter(outcomes, k);
    SettledAfter(outcomes, k, Resolved(outcomes[k].value), Progresses(outcomes[..k]) + [outcomes[k].value.progress]);
  }

  /** A check reporting a failed job rejects with that job's error, or
      "Job failed" when it has none. */
  lemma RejectsOnFailed(outcomes: seq<Result<JobStatus>>, k: nat)
    requires k < |outcomes| && KeepsPolling(outcomes[..k])
    requires outcomes[k].Success? && outcomes[k].value.state.Failed?
    ensures Run(outcomes) == Rejected(
      if outcomes[k].value.error != "" then outcomes[k].value.error else JobFailedMessage)
    ensures Reports(outcomes) == Progresses(outcomes[..k]) + [outcomes[k].value.progress]
  {
    StepAfter(outcomes, k);
    SettledAfter(outcomes, k,
      Rejected(if outcomes[k].value.error != "" then outcomes[k].value.error else JobFailedMessage),
      Progresses(outcomes[..k]) + [outcomes[k].value.progress]);
  }

  lemma TwoTrailingFailures(outcomes: seq<Result<JobStatus>>, k: nat)
    requires 2 <= k <= |outcomes| && outcomes[k - 2].Failure? && outcomes[k - 1].Failure?
    ensures TrailingFailures(outcomes[..k]) >= 2
  {
    var before := outcomes[..k];
    assert before[k - 1].Failure? && before[k - 2].Failure?;
  }

  /** The third consecutive failed check, while waiting, rejects. */
  lemma GiveUpStep(outcomes: seq<Result<JobStatus>>, k: nat)
    requires 2 <= k < |outcomes| && KeepsPolling(outcomes[..k])
    requires outcomes[k - 2].Failure? && outcomes[k - 1].Failure? && outcomes[k].Failure?
    ensures Run(outcomes[..k + 1]) == Rejected(GaveUpMessage)
    ensures Reports(outcomes[..k + 1]) == Progresses(outcomes[..k])
  {
    TwoTrailingFailures(outcomes, k);
    StepAfter(outcomes, k);
  }

  /** The third consecutive failed check makes the poller give up. */
  lemma GivesUpAfterThreeFailures(outcomes: seq<Result<JobStatus>>, k: nat)
    requires 2 <= k < |outcomes| && KeepsPolling(outcomes[..k])
    requires outcomes[k - 2].Failure? && outcomes[k - 1].Failure? && outcomes[k].Failure?
    ensures Run(outcomes) == Rejected(GaveUpMessage)
    ensures Reports(outcomes) == Progresses(outcomes[..k])
  {
    GiveUpStep(outcomes, k);
    SettledAfter(outcomes, k, Rejected(GaveUpMessage), Progresses(outcomes[..k]));
  }

  /** Where a poller that is no longer waiting stopped: the first check
      after which the outcomes stop keeping it waiting. */
  lemma FirstStop(outcomes: seq<Result<JobStatus>>) returns (k: nat)
    requires !KeepsPolling(outcomes)
    ensures k < |outcomes| && KeepsPolling(outcomes[..k]) && !KeepsPolling(outcomes[..k + 1])
  {
    k := |outcomes| - 1;
    assert outcomes[..k + 1] == outcomes;
    while !KeepsPolling(outcomes[..k])
      invariant 0 <= k < |outcomes| && !KeepsPolling(outcomes[..k + 1])
      decreases k
    {
      assert outcomes[..k][..k] == outcomes[..k];
      k := k - 1;
    }
  }

  /** What made the poller stop at its first stop: a check reporting a
      finished job, or a third consecutive failed check. */
  lemma StopReason(outcomes: seq<Result<JobStatus>>, k: nat)
    requires k < |outcomes| && KeepsPolling(outcomes[..k]) && !KeepsPolling(outcomes[..k + 1])
    ensures !Continuing(outcomes[k])
      || (2 <= k && outcomes[k - 2].Failure? && outcomes[k - 1].Failure? && outcomes[k].Failure?)
  {
    var before, prefix := outcomes[..k], outcomes[..k + 1];
    assert forall i :: 0 <= i < k ==> prefix[i] == before[i];
    assert forall i :: 0 <= i && i + 2 < k ==> ThreeFailures(prefix, i) == ThreeFailures(before, i);
  }

  /** The poller is still waiting exactly while the outcomes keep it
      waiting, and it resolves exactly when some check reports a completed
      job while it was waiting. */
  lemma RunCharacterised(outcomes: seq<Result<JobStatus>>)
    ensures Run(outcomes).Polling? <==> KeepsPolling(outcomes)
    ensures Run(outcomes).Resolved? <==>
      exists k :: (0 <= k < |outcomes| && KeepsPolling(outcomes[..k])
                   && outcomes[k].Success? && outcomes[k].value.state.Completed?)
  {
    if exists k :: (0 <= k < |outcomes| && KeepsPolling(outcomes[..k])
                    && outcomes[k].Success? && outcomes[k].value.state.Completed?) {
      var k :| 0 <= k < |outcomes| && KeepsPolling(outcomes[..k])
               && outcomes[k].Success? && outcomes[k].value.state.Completed?;
      ResolvesOnCompleted(outcomes, k);
    }
    if KeepsPolling(outcomes) {
      PollingWhileContinuing(outcomes);
    } else {
      var k := FirstStop(outcomes);
      StopReason(outcomes, k);
      if outcomes[k].Failure? {
        GivesUpAfterThreeFailures(outcomes, k);
      } else if outcomes[k].value.state.Completed? {
        ResolvesOnCompleted(outcomes, k);
      } else {
        RejectsOnFailed(outcomes, k);
      }
    }
  }

  /** `pollJobCompletion`: the state its promise is in once the given
      replies have been received, one per interval tick, and the progress
      values it handed to `onProgress`. */
  method PollJobCompletion(jobId: string, replies: seq<StatusReply>) returns (state: PollState, progress: seq<int>)
    ensures !ValidJobId(jobId) ==> state == Rejected(InvalidPollMessage) && progress == []
    ensures ValidJobId(jobId) ==> state == Run(Outcomes(jobId, replies))
    ensures ValidJobId(jobId) ==> progress == Reports(Outcomes(jobId, replies))
  {
    if !ValidJobId(jobId) {
      return Rejected(InvalidPollMessage), [];
    }
    ghost var outcomes := Outcomes(jobId, replies);
    var retryCount: nat := 0;
    var settled := false;
    state, progress := Polling(0), [];
    var i := 0;
    while i < |replies| && !settled
      invariant 0 <= i <= |replies|
      invariant !settled ==> retryCount < MaxRetries
      invariant Run(outcomes[..i]) == if settled then state else Polling(retryCount)
      invariant settled ==> !state.Polling?
      invariant progress == Reports(outcomes[..i])
    {
      assert outcomes[..i + 1][..i] == outcomes[..i];
      var status := CheckJobStatus(jobId, replies[i]);
      match status {
        case Success(s) =>
          retryCount := 0;
          progress := progress + [s.progress];
          if s.state.Completed? {
            state, settled := Resolved(s), true;
          } else if s.state.Failed? {
            state, settled := Rejected(if s.error != "" then s.error else JobFailedMessage), true;
          }
        case Failure(_) =>
          retryCount := retryCount + 1;
          if retryCount >= MaxRetries {
            state, settled := Rejected(GaveUpMessage), true;
          }
      }
      i := i + 1;
    }
    if !settled {
      state := Polling(retryCount);
      assert outcomes[..i] == outcomes;
    } else {
      SettledStays(outcomes, i);
      assert outcomes[..|outcomes|] == outcomes;
    }
  }
}
