/** The bookkeeping of the generator page (app/page.tsx): the frame counts
    it offers, the guards of a generation request, the batch of pending
    history entries it creates, how each entry follows its job to the end,
    and deletion from the history. The clock, the random draws, the
    thumbnail and every network reply are parameters. */
module Page {
  import opened Util
  import opened Storage
  import Api

  // ---------------------------------------------------------------------
  // Frame counts

  /** The values of `s` that are at most `limit`, in order. */
  function AtMost(s: seq<int>, limit: int): seq<int> {
    if s == [] then []
    else AtMost(s[..|s| - 1], limit) + (if s[|s| - 1] <= limit then [s[|s| - 1]] else [])
  }

  lemma {:induction false} AtMostKeepsAll(s: seq<int>, limit: int)
    requires forall i :: 0 <= i < |s| ==> s[i] <= limit
    ensures AtMost(s, limit) == s
  {
    if s != [] {
      AtMostKeepsAll(s[..|s| - 1], limit);
    }
  }

  /** The frame counts the page offers: fifty candidates of the form
      N*4+1, those above 200 filtered out. */
  function ValidFrameNumbers(): seq<int> {
    AtMost(seq(50, i => i * 4 + 1), 200)
  }

  /** No candidate is filtered out: the list is 1, 5, ..., 197, ascending,
      and holds exactly the numbers from 1 to 200 that leave 1 when
      divided by 4. */
  lemma ValidFrameNumbersAre()
    ensures |ValidFrameNumbers()| == 50
    ensures forall i :: 0 <= i < 50 ==> ValidFrameNumbers()[i] == 4 * i + 1
    ensures forall i, j :: 0 <= i < j < 50 ==> ValidFrameNumbers()[i] < ValidFrameNumbers()[j]
    ensures forall n :: n in ValidFrameNumbers() <==> 1 <= n <= 200 && n % 4 == 1
  {
    var candidates := seq(50, i => i * 4 + 1);
    AtMostKeepsAll(candidates, 200);
    forall n | 1 <= n <= 200 && n % 4 == 1 ensures n in candidates {
      assert candidates[(n - 1) / 4] == n;
    }
  }

  /** The page's default frame count is one of the offered values. */
  lemma DefaultFramesOffered()
    ensures DefaultFrames in ValidFrameNumbers()
  {
    ValidFrameNumbersAre();
  }

  // ---------------------------------------------------------------------
  // The batch entries

  const DefaultFrames: int := 17
  const DefaultBatchSize: nat := 1
  /** The negative prompt the page starts with. */
  const DefaultNegativePrompt: string := "色调艳丽，过曝，静态，细节模糊不清，字幕，风格，作品，画作，画面，静止，整体发灰，最差质量，低质量，JPEG压缩残留，丑陋的，残缺的，多余的手指，画得不好的手部，画得不好的脸部，畸形的，毁容的，形态畸形的肢体，手指融合，静止不动的画面，杂乱的背景，三条腿，背景人很多，倒着走"

  /** The selected image file: its name and its content as base64. */
  datatype ImageFile = ImageFile(name: string, base64: string)

  /** What the page sends for every entry of one batch. */
  datatype Request = Request(
    prompt: string,
    negativePrompt: string,
    resolution: Resolution,
    frames: int,
    image: ImageFile,
    thumbnail: string)

  /** What the outside world supplies for one entry of a batch: the random
      draw `Math.floor(Math.random() * 999999)`, the two clock readings,
      the workflow template as loaded, the reply to the submission, the
      replies to the status checks and the object URL of the video. */
  datatype ItemEnv = ItemEnv(
    draw: int,
    idClock: nat,
    stamp: int,
    workflow: Api.Workflow,
    submitReply: Api.SubmitReply,
    pollReplies: seq<Api.StatusReply>,
    videoUrl: string)

  const SeedDraws: int := 999999

  /** The seed of one batch entry. */
  function Seed(draw: int): (seed: int)
    requires 0 <= draw < SeedDraws
    ensures 1 <= seed <= 999999
  {
    draw + 1
  }

  /** The id of the `i`-th entry of a batch, `${Date.now()}-${i}`. */
  function BatchId(now: nat, i: nat): string {
    Decimal(now) + "-" + Decimal(i)
  }

  /** Entries of one batch never share an id, whatever the clock read. */
  lemma BatchIdsDistinct(now1: nat, i: nat, now2: nat, j: nat)
    requires i != j
    ensures BatchId(now1, i) != BatchId(now2, j)
  {
    if BatchId(now1, i) == BatchId(now2, j) {
      JoinedUnique(Decimal(now1), Decimal(i), Decimal(now2), Decimal(j), '-');
      DecimalInjective(i, j);
    }
  }

  function PendingEntry(id: string, req: Request, stamp: int): GenerationHistory {
    GenerationHistory(id, "", req.prompt, req.negativePrompt, req.thumbnail, None, Pending,
                      stamp, Some(0), None, req.resolution, req.frames)
  }

  /** The entries the batch loop creates, in creation order. */
  function BatchEntries(req: Request, envs: seq<ItemEnv>): (entries: seq<GenerationHistory>)
    ensures |entries| == |envs|
    ensures forall i :: 0 <= i < |envs| ==> entries[i] == PendingEntry(BatchId(envs[i].idClock, i), req, envs[i].stamp)
  {
    if envs == [] then []
    else BatchEntries(req, envs[..|envs| - 1]) + [PendingEntry(BatchId(envs[|envs| - 1].idClock, |envs| - 1), req, envs[|envs| - 1].stamp)]
  }

  /** Every batch entry starts pending, without a job id, at progress 0,
      with the request's prompts, thumbnail, resolution and frames, and the
      ids are pairwise distinct. */
  lemma BatchEntriesArePending(req: Request, envs: seq<ItemEnv>)
    ensures forall i :: 0 <= i < |envs| ==>
      var e := BatchEntries(req, envs)[i];
      e.status == Pending && e.progress == Some(0) && e.jobId == "" && e.videoUrl == None
      && e.prompt == req.prompt && e.negativePrompt == req.negativePrompt
      && e.imagePreview == req.thumbnail && e.resolution == req.resolution && e.frames == req.frames
    ensures forall i, j :: 0 <= i < j < |envs| ==> BatchEntries(req, envs)[i].id != BatchEntries(req, envs)[j].id
  {
    forall i, j | 0 <= i < j < |envs| ensures BatchEntries(req, envs)[i].id != BatchEntries(req, envs)[j].id {
      BatchIdsDistinct(envs[i].idClock, i, envs[j].idClock, j);
    }
  }

  // ---------------------------------------------------------------------
  // Following one job

  function JobIdPatch(jobId: string): Patch {
    NoChanges.(jobId := Some(jobId))
  }

  /** The progress update the callback is evidently meant to make: the
      entry's progress becomes the reported value. */
  function ProgressPatch(progress: int): Patch {
    NoChanges.(progress := Some(Some(progress)))
  }

  /** The progress update as written: the callback reads `.progress` and
      `.details` off the number it is handed, so both keys are present and
      undefined. */
  function ProgressPatchAsWritten(progress: int): Patch {
    NoChanges.(progress := Some(None), progressDetails := Some(None))
  }

  function CompletedPatch(videoUrl: string): Patch {
    NoChanges.(status := Some(Completed), videoUrl := Some(Some(videoUrl)), progress := Some(Some(100)))
  }

  const FailedPatch: Patch := NoChanges.(status := Some(Failed))

  /** The poller's final state for a submitted job. */
  function JobPoll(jobId: string, replies: seq<Api.StatusReply>): Api.PollState {
    if Api.ValidJobId(jobId) then Api.Run(Api.Outcomes(jobId, replies)) else Api.Rejected(Api.InvalidPollMessage)
  }

  /** The progress values the poller reports for a submitted job. */
  function JobReports(jobId: string, replies: seq<Api.StatusReply>): seq<int> {
    if Api.ValidJobId(jobId) then Api.Reports(Api.Outcomes(jobId, replies)) else []
  }

  function ProgressPatches(reports: seq<int>, progressPatch: int -> Patch): (ps: seq<Patch>)
    ensures |ps| == |reports|
    ensures forall i :: 0 <= i < |reports| ==> ps[i] == progressPatch(reports[i])
  {
    if reports == [] then []
    else ProgressPatches(reports[..|reports| - 1], progressPatch) + [progressPatch(reports[|reports| - 1])]
  }

  /** The update made when the poller settles: completed with the video
      when the final status carries an output, failed when it rejected,
      nothing while it waits or when no output came back. */
  function Settlement(poll: Api.PollState, videoUrl: string): seq<Patch> {
    match poll
    case Resolved(status) => if |status.outputs| > 0 then [CompletedPatch(videoUrl)] else []
    case Rejected(_) => [FailedPatch]
    case Polling(_) => []
  }

  /** Every update one job makes to its entry, in order, given how its
      submission went and the replies to its status checks. */
  function Lifecycle(submitted: Result<string>, replies: seq<Api.StatusReply>, videoUrl: string,
                     progressPatch: int -> Patch): seq<Patch> {
    match submitted
    case Failure(_) => [FailedPatch]
    case Success(jobId) =>
      [JobIdPatch(jobId)] + ProgressPatches(JobReports(jobId, replies), progressPatch)
      + Settlement(JobPoll(jobId, replies), videoUrl)
  }

  function Submitted(req: Request, env: ItemEnv): Result<string>
    requires 0 <= env.draw < SeedDraws
  {
    Api.SubmitJob(req.image.base64, req.prompt, req.negativePrompt, req.image.name,
                  Seed(env.draw), env.workflow, env.submitReply)
  }

  /** A job's promise has settled: its submission failed, or its poller
      stopped waiting (resolved or rejected). */
  predicate JobSettled(req: Request, env: ItemEnv)
    requires 0 <= env.draw < SeedDraws
  {
    Submitted(req, env).Failure? || !JobPoll(Submitted(req, env).value, env.pollReplies).Polling?
  }

  /** The first `n` jobs of a batch have settled; with `n == |envs|`,
      waiting for the whole batch ends. */
  predicate BatchSettled(req: Request, envs: seq<ItemEnv>, n: nat)
    requires n <= |envs|
    requires forall i :: 0 <= i < |envs| ==> 0 <= envs[i].draw < SeedDraws
  {
    forall i :: 0 <= i < n ==> JobSettled(req, envs[i])
  }

  /** One more job settles the first `n + 1` exactly when the first `n`
      had settled and so has job `n`. */
  lemma BatchSettledStep(req: Request, envs: seq<ItemEnv>, n: nat)
    requires n < |envs|
    requires forall i :: 0 <= i < |envs| ==> 0 <= envs[i].draw < SeedDraws
    ensures BatchSettled(req, envs, n + 1) <==> BatchSettled(req, envs, n) && JobSettled(req, envs[n])
  {
  }

  function JobPatches(req: Request, env: ItemEnv): seq<Patch>
    requires 0 <= env.draw < SeedDraws
  {
    Lifecycle(Submitted(req, env), env.pollReplies, env.videoUrl, ProgressPatch)
  }

  /** A run of progress updates leaves the entry's progress at the last
      reported value and changes nothing else. */
  lemma {:induction false} ProgressRun(e: GenerationHistory, reports: seq<int>)
    ensures Patched(e, ProgressPatches(reports, ProgressPatch))
         == if reports == [] then e else e.(progress := Some(reports[|reports| - 1]))
  {
    if reports != [] {
      var before := reports[..|reports| - 1];
      assert ProgressPatches(reports, ProgressPatch)[..|reports| - 1] == ProgressPatches(before, ProgressPatch);
      ProgressRun(e, before);
    }
  }

  /** As written, any progress report leaves the entry's progress and
      progress details undefined. */
  lemma {:induction false} ProgressRunAsWritten(e: GenerationHistory, reports: seq<int>)
    ensures Patched(e, ProgressPatches(reports, ProgressPatchAsWritten))
         == if reports == [] then e else e.(progress := None, progressDetails := None)
  {
    if reports != [] {
      var before := reports[..|reports| - 1];
      assert ProgressPatches(reports, ProgressPatchAsWritten)[..|reports| - 1]
          == ProgressPatches(before, ProgressPatchAsWritten);
      ProgressRunAsWritten(e, before);
    }
  }

  lemma LifecycleKeepsId(submitted: Result<string>, replies: seq<Api.StatusReply>, videoUrl: string)
    ensures forall i :: 0 <= i < |Lifecycle(submitted, replies, videoUrl, ProgressPatch)| ==>
      Lifecycle(submitted, replies, videoUrl, ProgressPatch)[i].id.None?
  {
  }

  /** Where a pending entry ends up once its job's updates are applied.
      It becomes completed, with progress 100 and the video, exactly when
      the job was submitted and its final status carries an output; it
      becomes failed exactly when the submission or the polling failed;
      otherwise it stays pending with the last reported progress. The job
      id is recorded once the submission succeeded, and the request's
      fields are never touched. */
  lemma JobOutcome(e: GenerationHistory, submitted: Result<string>, replies: seq<Api.StatusReply>, videoUrl: string)
    requires e.status == Pending
    ensures var f := Patched(e, Lifecycle(submitted, replies, videoUrl, ProgressPatch));
      && f.id == e.id && f.prompt == e.prompt && f.negativePrompt == e.negativePrompt
      && f.imagePreview == e.imagePreview && f.timestamp == e.timestamp
      && f.resolution == e.resolution && f.frames == e.frames
      && f.jobId == (if submitted.Success? then submitted.value else e.jobId)
      && (f.status == Completed <==>
            submitted.Success? && JobPoll(submitted.value, replies).Resolved?
            && |JobPoll(submitted.value, replies).status.outputs| > 0)
      && (f.status == Completed ==> f.progress == Some(100) && f.videoUrl == Some(videoUrl))
      && (f.status == Failed <==> submitted.Failure? || JobPoll(submitted.value, replies).Rejected?)
      && (submitted.Success? && JobPoll(submitted.value, replies).Polling? ==>
            var reports := JobReports(submitted.value, replies);
            f.progress == if reports == [] then e.progress else Some(reports[|reports| - 1]))
  {
    if submitted.Success? {
      var jobId := submitted.value;
      var reports := JobReports(jobId, replies);
      var head := [JobIdPatch(jobId)];
      var progress := ProgressPatches(reports, ProgressPatch);
      var tail := Settlement(JobPoll(jobId, replies), videoUrl);
      PatchedConcat(e, head + progress, tail);
      PatchedConcat(e, head, progress);
      assert Patched(e, head) == e.(jobId := jobId);
      ProgressRun(e.(jobId := jobId), reports);
    }
  }

  /** The same, with the progress update as written: while the job is
      still running after a report, the entry's progress is undefined
      instead of the reported value. */
  lemma JobProgressAsWritten(e: GenerationHistory, jobId: string, replies: seq<Api.StatusReply>, videoUrl: string)
    requires JobPoll(jobId, replies).Polling? && JobReports(jobId, replies) != []
    ensures Patched(e, Lifecycle(Success(jobId), replies, videoUrl, ProgressPatchAsWritten)).progress == None
    ensures Patched(e, Lifecycle(Success(jobId), replies, videoUrl, ProgressPatch)).progress
         == Some(JobReports(jobId, replies)[|JobReports(jobId, replies)| - 1])
  {
    var reports := JobReports(jobId, replies);
    var head := [JobIdPatch(jobId)];
    var tail := Settlement(JobPoll(jobId, replies), videoUrl);
    assert tail == [];
    var asWritten := ProgressPatches(reports, ProgressPatchAsWritten);
    var intended := ProgressPatches(reports, ProgressPatch);
    assert Lifecycle(Success(jobId), replies, videoUrl, ProgressPatchAsWritten) == head + asWritten + [];
    assert Lifecycle(Success(jobId), replies, videoUrl, ProgressPatch) == head + intended + [];
    assert head + asWritten + [] == head + asWritten;
    assert head + intended + [] == head + intended;
    PatchedConcat(e, head, asWritten);
    PatchedConcat(e, head, intended);
    ProgressRunAsWritten(e.(jobId := jobId), reports);
    ProgressRun(e.(jobId := jobId), reports);
  }

  // ---------------------------------------------------------------------
  // The stored list while the batch's jobs run

  function BatchIds(envs: seq<ItemEnv>): (ids: seq<string>)
    ensures |ids| == |envs|
    ensures forall i :: 0 <= i < |envs| ==> ids[i] == BatchId(envs[i].idClock, i)
  {
    if envs == [] then []
    else BatchIds(envs[..|envs| - 1]) + [BatchId(envs[|envs| - 1].idClock, |envs| - 1)]
  }

  function BatchPatches(req: Request, envs: seq<ItemEnv>): (patches: seq<seq<Patch>>)
    requires forall i :: 0 <= i < |envs| ==> 0 <= envs[i].draw < SeedDraws
    ensures |patches| == |envs|
  {
    if envs == [] then []
    else BatchPatches(req, envs[..|envs| - 1]) + [JobPatches(req, envs[|envs| - 1])]
  }

  lemma {:induction false} BatchPatchesAt(req: Request, envs: seq<ItemEnv>, i: nat)
    requires forall i :: 0 <= i < |envs| ==> 0 <= envs[i].draw < SeedDraws
    requires i < |envs|
    ensures BatchPatches(req, envs)[i] == JobPatches(req, envs[i])
  {
    if i < |envs| - 1 {
      BatchPatchesAt(req, envs[..|envs| - 1], i);
    }
  }

  /** The stored list after the first `n` jobs of a batch have run. */
  function JobsRun(h: seq<GenerationHistory>, req: Request, envs: seq<ItemEnv>, n: nat): seq<GenerationHistory>
    requires n <= |envs|
    requires forall i :: 0 <= i < |envs| ==> 0 <= envs[i].draw < SeedDraws
  {
    UpdatedEach(h, BatchIds(envs), BatchPatches(req, envs), n)
  }

  /** The stored list after a whole batch, starting from `h`: the batch's
      entries newest first, each one after its own updates, followed by
      the former entries that still fit under the cap. The `i`-th entry's
      updates are `patches[i]`; for the jobs of `generateVideo` they are
      `BatchPatches(req, envs)`, which keep ids by `BatchPatchesKeepIds`. */
  lemma BatchResult(h: seq<GenerationHistory>, req: Request, envs: seq<ItemEnv>, patches: seq<seq<Patch>>)
    requires |envs| == |patches| <= MaxEntries
    requires forall i, q :: 0 <= i < |envs| && 0 <= q < |patches[i]| ==> patches[i][q].id.None?
    ensures var r := UpdatedEach(AddedAll(h, BatchEntries(req, envs)), BatchIds(envs), patches, |envs|);
      && |r| == (if |h| >= MaxEntries then |h| else Min(MaxEntries, |h| + |envs|))
      && (forall i :: 0 <= i < |envs| ==> r[|envs| - 1 - i] == Patched(BatchEntries(req, envs)[i], patches[i]))
      && |envs| <= |r| && r[|envs|..] == h[..|r| - |envs|]
  {
    var entries := BatchEntries(req, envs);
    var ids := BatchIds(envs);
    BatchIdsUnique(envs);
    assert forall i :: 0 <= i < |envs| ==> entries[i].id == ids[i];
    AddedThenUpdated(h, entries, ids, patches, |envs|);
  }

  lemma BatchIdsUnique(envs: seq<ItemEnv>)
    ensures forall i, j :: 0 <= i < j < |envs| ==> BatchIds(envs)[i] != BatchIds(envs)[j]
  {
    forall i, j | 0 <= i < j < |envs| ensures BatchIds(envs)[i] != BatchIds(envs)[j] {
      BatchIdsDistinct(envs[i].idClock, i, envs[j].idClock, j);
    }
  }

  lemma BatchPatchesKeepIds(req: Request, envs: seq<ItemEnv>)
    requires forall i :: 0 <= i < |envs| ==> 0 <= envs[i].draw < SeedDraws
    ensures forall i, q :: 0 <= i < |envs| && 0 <= q < |BatchPatches(req, envs)[i]| ==> BatchPatches(req, envs)[i][q].id.None?
  {
    forall i | 0 <= i < |envs| ensures forall q :: 0 <= q < |BatchPatches(req, envs)[i]| ==> BatchPatches(req, envs)[i][q].id.None? {
      BatchPatchesAt(req, envs, i);
      LifecycleKeepsId(Submitted(req, envs[i]), envs[i].pollReplies, envs[i].videoUrl);
    }
  }

  // ---------------------------------------------------------------------
  // Deleting

  /** `history.filter(item => item.id !== id)`. */
  function WithoutId(h: seq<GenerationHistory>, id: string): (r: seq<GenerationHistory>)
    ensures |r| <= |h|
    ensures forall x :: x in r <==> x in h && x.id != id
  {
    if h == [] then []
    else (if h[0].id != id then [h[0]] else []) + WithoutId(h[1..], id)
  }

  /** Deleting keeps the remaining entries in their order. */
  lemma {:induction false} WithoutIdConcat(a: seq<GenerationHistory>, b: seq<GenerationHistory>, id: string)
    ensures WithoutId(a + b, id) == WithoutId(a, id) + WithoutId(b, id)
  {
    if a != [] {
      assert (a + b)[1..] == a[1..] + b;
      WithoutIdConcat(a[1..], b, id);
    } else {
      assert a + b == b;
    }
  }

  // ---------------------------------------------------------------------
  // The page

  /** The page's state that generation and deletion use. */
  class GeneratorPage {
    const store: HistoryStore
    var prompt: string
    var negativePrompt: string
    var resolution: Resolution
    var frames: int
    var batchSize: nat
    var selectedImage: Option<ImageFile>
    var isGenerating: bool
    var queuedJobs: nat

    constructor (store: HistoryStore)
      ensures this.store == store && prompt == "" && negativePrompt == DefaultNegativePrompt
      ensures resolution == Res768x768 && frames == DefaultFrames && batchSize == DefaultBatchSize
      ensures selectedImage == None && !isGenerating && queuedJobs == 0
    {
      this.store := store;
      prompt := "";
      negativePrompt := DefaultNegativePrompt;
      resolution := Res768x768;
      frames := DefaultFrames;
      batchSize := DefaultBatchSize;
      selectedImage := None;
      isGenerating := false;
      queuedJobs := 0;
    }

    /** Applies the progress reports of one job to its entry, in the order
        the poller made them. */
    method ApplyProgress(historyId: string, progress: seq<int>)
      requires store.inBrowser
      modifies store
      ensures store.History() == UpdatedAll(old(store.History()), historyId, ProgressPatches(progress, ProgressPatch))
    {
      ghost var h0 := store.History();
      var k := 0;
      while k < |progress|
        invariant 0 <= k <= |progress|
        invariant store.History() == UpdatedAll(h0, historyId, ProgressPatches(progress[..k], ProgressPatch))
      {
        store.UpdateHistoryItem(historyId, ProgressPatch(progress[k]));
        assert ProgressPatches(progress[..k + 1], ProgressPatch)[..k] == ProgressPatches(progress[..k], ProgressPatch);
        k := k + 1;
      }
      assert progress[..k] == progress;
    }

    /** Applies the final update of a job once its poller settled:
        completed with the video when the final status carries an output,
        failed when the poller rejected. */
    method Settle(historyId: string, state: Api.PollState, videoUrl: string)
      requires store.inBrowser
      modifies store
      ensures store.History() == UpdatedAll(old(store.History()), historyId, Settlement(state, videoUrl))
    {
      ghost var h0 := store.History();
      match state {
        case Resolved(status) =>
          if |status.outputs| > 0 {
            store.UpdateHistoryItem(historyId, CompletedPatch(videoUrl));
            assert [CompletedPatch(videoUrl)][..0] == [];
          }
        case Rejected(_) =>
          store.UpdateHistoryItem(historyId, FailedPatch);
          assert [FailedPatch][..0] == [];
        case Polling(_) =>
      }
    }

    /** Applies each update a submitted (or refused) job makes to the entry
        with `historyId`: the job id, every progress report, then
        completion or failure. */
    method FollowSubmission(historyId: string, submitted: Result<string>, replies: seq<Api.StatusReply>, videoUrl: string)
      returns (settled: bool)
      requires store.inBrowser
      modifies store
      ensures store.History() == UpdatedAll(old(store.History()), historyId, Lifecycle(submitted, replies, videoUrl, ProgressPatch))
      ensures settled <==> submitted.Failure? || !JobPoll(submitted.value, replies).Polling?
    {
      ghost var h0 := store.History();
      match submitted {
        case Failure(_) =>
          store.UpdateHistoryItem(historyId, FailedPatch);
          assert [FailedPatch][..0] == [];
          settled := true;
        case Success(jobId) =>
          store.UpdateHistoryItem(historyId, JobIdPatch(jobId));
          assert [JobIdPatch(jobId)][..0] == [];
          var state, progress := Api.PollJobCompletion(jobId, replies);
          ApplyProgress(historyId, progress);
          Settle(historyId, state, videoUrl);
          ghost var reported := ProgressPatches(progress, ProgressPatch);
          UpdatedAllConcat(h0, historyId, [JobIdPatch(jobId)], reported);
          UpdatedAllConcat(h0, historyId, [JobIdPatch(jobId)] + reported, Settlement(state, videoUrl));
          settled := !state.Polling?;
      }
    }

    /** Submits one batch entry's job with the entry's seed and follows it
        to the end. */
    method FollowJob(historyId: string, seed: int, req: Request, env: ItemEnv) returns (settled: bool)
      requires store.inBrowser
      requires 0 <= env.draw < SeedDraws && seed == Seed(env.draw)
      modifies store
      ensures store.History() == UpdatedAll(old(store.History()), historyId, JobPatches(req, env))
      ensures settled <==> JobSettled(req, env)
    {
      var submitted := Api.SubmitJob(req.image.base64, req.prompt, req.negativePrompt, req.image.name, seed,
                                     env.workflow, env.submitReply);
      settled := FollowSubmission(historyId, submitted, env.pollReplies, env.videoUrl);
    }

    /** The creation loop of `generateVideo`: one pending entry per batch
        item, each with its own id and seed, added to the history in turn. */
    method AddBatch(req: Request, envs: seq<ItemEnv>) returns (historyItems: seq<(string, int)>)
      requires store.inBrowser
      requires forall i :: 0 <= i < |envs| ==> 0 <= envs[i].draw < SeedDraws
      modifies store
      ensures |historyItems| == |envs|
      ensures forall i :: 0 <= i < |envs| ==> historyItems[i] == (BatchId(envs[i].idClock, i), Seed(envs[i].draw))
      ensures store.History() == AddedAll(old(store.History()), BatchEntries(req, envs))
    {
      ghost var entries := BatchEntries(req, envs);
      ghost var h0 := store.History();
      historyItems := [];
      var i := 0;
      while i < |envs|
        invariant 0 <= i <= |envs| && |historyItems| == i
        invariant forall j :: 0 <= j < i ==> historyItems[j] == (BatchId(envs[j].idClock, j), Seed(envs[j].draw))
        invariant store.History() == AddedAll(h0, entries[..i])
      {
        var seed := Seed(envs[i].draw);
        var historyId := BatchId(envs[i].idClock, i);
        store.AddToHistory(PendingEntry(historyId, req, envs[i].stamp));
        assert entries[..i + 1][..i] == entries[..i];
        ghost var before := historyItems;
        historyItems := historyItems + [(historyId, seed)];
        forall j | 0 <= j < i + 1 ensures historyItems[j] == (BatchId(envs[j].idClock, j), Seed(envs[j].draw)) {
          if j < i {
            assert historyItems[j] == before[j];
          }
        }
        i := i + 1;
      }
      assert entries[..i] == entries;
    }

    /** The submission loop of `generateVideo`: each entry follows its own
        job, one after the other. */
    method RunBatch(req: Request, historyItems: seq<(string, int)>, envs: seq<ItemEnv>) returns (allSettled: bool)
      requires store.inBrowser
      requires forall i :: 0 <= i < |envs| ==> 0 <= envs[i].draw < SeedDraws
      requires |historyItems| == |envs|
      requires forall i :: 0 <= i < |envs| ==> historyItems[i] == (BatchId(envs[i].idClock, i), Seed(envs[i].draw))
      modifies store
      ensures store.History() == JobsRun(old(store.History()), req, envs, |envs|)
      ensures allSettled <==> BatchSettled(req, envs, |envs|)
    {
      ghost var h0 := store.History();
      allSettled := true;
      var j := 0;
      while j < |historyItems|
        invariant 0 <= j <= |historyItems|
        invariant store.History() == JobsRun(h0, req, envs, j)
        invariant allSettled <==> BatchSettled(req, envs, j)
      {
        var (historyId, seed) := historyItems[j];
        var settled := FollowJob(historyId, seed, req, envs[j]);
        allSettled := allSettled && settled;
        BatchSettledStep(req, envs, j);
        BatchPatchesAt(req, envs, j);
        j := j + 1;
      }
    }

    /** The body of `generateVideo` once it starts generating: the batch's
        pending entries are added, then each follows its own job; the
        result tells whether every job has settled. */
    method GenerateBatch(req: Request, envs: seq<ItemEnv>) returns (allSettled: bool)
      requires store.inBrowser
      requires forall i :: 0 <= i < |envs| ==> 0 <= envs[i].draw < SeedDraws
      modifies store
      ensures store.History() == JobsRun(AddedAll(old(store.History()), BatchEntries(req, envs)), req, envs, |envs|)
      ensures allSettled <==> BatchSettled(req, envs, |envs|)
    {
      var historyItems := AddBatch(req, envs);
      allSettled := RunBatch(req, historyItems, envs);
    }

    /** `generateVideo`. With no image or no prompt nothing happens; while
        a batch runs the request only adds the batch size to the queued
        count; otherwise a batch of `batchSize` pending entries is added
        and each entry follows its own job. Only once every job has
        settled does generation end and a non-zero queued count become the
        next batch size; while one still polls, the page keeps generating. */
    method GenerateVideo(thumbnail: string, envs: seq<ItemEnv>)
      requires store.inBrowser
      requires |envs| == batchSize
      requires forall i :: 0 <= i < |envs| ==> 0 <= envs[i].draw < SeedDraws
      modifies this, store
      ensures old(selectedImage).None? || old(prompt) == "" ==>
        unchanged(this) && unchanged(store)
      ensures old(selectedImage).Some? && old(prompt) != "" && old(isGenerating) ==>
        queuedJobs == old(queuedJobs) + old(batchSize) && isGenerating && batchSize == old(batchSize)
        && unchanged(store)
      ensures old(selectedImage).Some? && old(prompt) != "" && !old(isGenerating) ==>
        var req := Request(prompt, negativePrompt, resolution, frames, old(selectedImage).value, thumbnail);
        && store.History() == JobsRun(AddedAll(old(store.History()), BatchEntries(req, envs)), req, envs, |envs|)
        && (BatchSettled(req, envs, |envs|) ==>
              && !isGenerating
              && (old(queuedJobs) > 0 ==> queuedJobs == 0 && batchSize == old(queuedJobs))
              && (old(queuedJobs) == 0 ==> queuedJobs == 0 && batchSize == old(batchSize)))
        && (!BatchSettled(req, envs, |envs|) ==>
              isGenerating && queuedJobs == old(queuedJobs) && batchSize == old(batchSize))
      ensures prompt == old(prompt) && negativePrompt == old(negativePrompt) && resolution == old(resolution)
        && frames == old(frames) && selectedImage == old(selectedImage)
    {
      if selectedImage.None? || prompt == "" {
        return;
      }
      if isGenerating {
        queuedJobs := queuedJobs + batchSize;
        return;
      }
      isGenerating := true;
      var req := Request(prompt, negativePrompt, resolution, frames, selectedImage.value, thumbnail);
      var allSettled := GenerateBatch(req, envs);
      if !allSettled {
        // A job still waits on its poller: the wait for the whole batch
        // has not returned, so generation goes on.
        return;
      }
      if queuedJobs > 0 {
        var jobsToProcess := queuedJobs;
        queuedJobs := 0;
        batchSize := jobsToProcess;
      }
      isGenerating := false;
    }

    /** `deleteHistoryItem`: every entry with the id is removed and the
        list is written back. */
    method DeleteHistoryItem(id: string)
      modifies store
      ensures store.History() == WithoutId(old(store.History()), id)
      ensures !Contains(store.History(), id)
    {
      var history := store.GetHistory();
      var filtered := WithoutId(history, id);
      store.SaveHistory(filtered);
    }
  }
}
