# Image-to-video generator: history store, job client and batch bookkeeping

This project models, in Dafny, the sequential logic of a browser front end
for a remote image-to-video generation service, and proves properties of
that model. It has three parts:

- **The history store** (`lib/storage.ts`), module `Storage`. A
  newest-first list of generation records lives under one key of the
  browser's local storage and is capped at fifty entries.
  - `HistoryStore` is a class whose `stored` field stands for that key.
  - `addToHistory` puts a record in front and drops the oldest past the cap.
  - `updateHistoryItem` merges a partial record (`Patch`) into the first
    record with a given id.
  - The "today" and "yesterday" views filter the list by timestamp.
- **The job client** (`lib/api.ts`), module `Api`.
  - The seed patch of workflow nodes 27 and 90, and the envelope `submitJob`
    posts. Both follow JavaScript's truthiness and strict-mode assignment
    rules.
  - The job-id guard shared by `checkJobStatus` and `pollJobCompletion`.
  - The poller as a step function over the outcomes of successive status
    checks: `Step`, `Run` and `Reports`. It is characterised by independent
    predicates and implemented by a loop (`PollJobCompletion`). Failed
    checks are counted and reset on every successful one. The poller gives
    up at the third consecutive failure, resolves on `completed` and
    rejects on `failed`.
- **The generator page** (`app/page.tsx`), module `Page`.
  - The offered frame counts.
  - `generateVideo`: its two guards, the queued-jobs counter, the loop that
    creates one pending record per batch item, and the updates each job
    makes to its record up to completion or failure. The progress update
    used there is the corrected one described under "## Findings".
  - `deleteHistoryItem`.
  - The page is a class `GeneratorPage` whose fields are the page state
    these operations read and write.

`Util` holds `Option`, `Result` and the decimal rendering of numbers that
the page uses to build record ids.

Everything the program takes from outside is a parameter:

- the two local midnights;
- the clock readings and random draws of a batch, the workflow template
  and the service's replies, all bundled per item in `Page.ItemEnv`;
- the thumbnail and the object URL of the video.

## Model

| member | source | states |
|---|---|---|
| Util.Decimal | app/page.tsx:95 | `${n}` of a non-negative number is a non-empty string of decimal digits |
| Util.DecimalRoundTrip | app/page.tsx:95 | reading the rendered digits back gives the number again |
| Util.DecimalInjective | app/page.tsx:95 | distinct numbers render as distinct strings |
| Util.JoinedUnique | app/page.tsx:95 | `a-b` built from digit strings splits back into `a` and `b` |
| Storage.Added | lib/storage.ts:34-42 | the new item is first, the former entries follow in order, the list grows by one below the cap and keeps its length at the cap (only the last entry dropped), and it stays within fifty |
| Storage.FirstIndex | lib/storage.ts:46 | `findIndex`: no index exactly when no entry has the id; otherwise the index holds the id and no earlier entry does |
| Storage.Updated | lib/storage.ts:44-51 | updating never changes the list's length |
| Storage.UpdatedFirstMatch | lib/storage.ts:46-48 | an absent id changes nothing; otherwise only the first entry with the id changes, into the merge of the entry with the patch, and every other entry is kept |
| Storage.Since | lib/storage.ts:56 | exactly the entries stamped at or after the bound, never more than the list |
| Storage.Within | lib/storage.ts:65-67 | exactly the entries stamped in `[from, until)`, never more than the list |
| Storage.SinceConcat | lib/storage.ts:56 | the filter keeps the stored order: filtering a concatenation concatenates the filters |
| Storage.WithinConcat | lib/storage.ts:65-67 | the window filter keeps the stored order in the same way |
| Storage.SincePartition | lib/storage.ts:53-68 | the entries since yesterday's midnight are today's and yesterday's together, counted with multiplicity |
| Storage.AddedAllLength | lib/storage.ts:34-42 | successive adds grow the list by one per item up to fifty and never shrink it |
| Storage.AddedShifts | lib/storage.ts:36-40 | after one add, every former entry that stays sits one place further back |
| Storage.AddedAllFront | lib/storage.ts:34-42 | after up to fifty successive adds the items lead the list, newest first |
| Storage.AddedAllBack | lib/storage.ts:34-42 | behind the added items the former entries follow in their order, as many as fit |
| Storage.AddedAllReversed | lib/storage.ts:34-42 | the `i`-th added item sits at position `n - 1 - i` and the former entries that still fit follow |
| Storage.PatchedConcat | lib/storage.ts:48 | applying two runs of updates one after the other is applying their concatenation |
| Storage.PatchedKeepsId | lib/storage.ts:48 | updates that do not set `id` keep the entry's id |
| Storage.UpdatedAllConcat | lib/storage.ts:44-51 | successive `updateHistoryItem` calls compose |
| Storage.UpdatedAllAt | lib/storage.ts:44-51 | when the entry at `k` is the first with the id, id-keeping updates all land on it and nowhere else |
| Storage.ShapeStep | app/page.tsx:117-174 | when the first `n - 1` entries of a batch are done, entry `n - 1` is the first with its id, and its updates land at its own position |
| Storage.UpdatedEachShape | app/page.tsx:117-174 | with a batch's entries newest first at the front, each entry's updates land on that entry and nothing else changes |
| Storage.AddedThenUpdated | app/page.tsx:92-174 | adding a batch and then running each entry's updates leaves the entries newest first, each after its own updates, followed by the former entries that fit |
| Storage.HistoryStore.GetHistory | lib/storage.ts:23-27 | the stored list; empty when there is no window or nothing is stored |
| Storage.HistoryStore.SaveHistory | lib/storage.ts:29-32 | the list is stored when there is a window; otherwise nothing changes |
| Storage.HistoryStore.AddToHistory | lib/storage.ts:34-42 | the stored list becomes `Added` of the former one, so at most fifty entries stay at most fifty; without a window nothing is written |
| Storage.HistoryStore.UpdateHistoryItem | lib/storage.ts:44-51 | an absent id leaves the store untouched (no write); otherwise the stored list becomes `Updated` of the former one |
| Storage.HistoryStore.TodayHistory | lib/storage.ts:53-57 | exactly the stored entries stamped at or after today's midnight |
| Storage.HistoryStore.YesterdayHistory | lib/storage.ts:59-68 | exactly the stored entries stamped in `[yesterday, today)`, none of them among today's |
| Api.SetSeed | lib/api.ts:47-53 | a truthy primitive `inputs` throws; an object `inputs` gets `seed` set with every other field and node kept; a missing node or falsy `inputs` leaves the workflow unchanged |
| Api.PatchSeeds | lib/api.ts:45-53 | fails exactly when node 27 or 90 has primitive inputs; otherwise both nodes with object inputs get the seed and every other node is unchanged |
| Api.Submission | lib/api.ts:55-78 | the workflow is the seed-patched one; exactly two raw inputs on node 16 carry the prompt and the negative prompt; the one media entry is `image.jpg` with the image data; priority 1 |
| Api.SubmissionIgnoresImageName | lib/api.ts:71-76 | the caller's image name makes no difference to the submission |
| Api.SubmitJob | lib/api.ts:36-95 | succeeds exactly with a non-empty `job_id` after a good seed patch and returns it; with no `job_id` it fails with the reply's `error`, or the default message |
| Api.CheckJobStatus | lib/api.ts:97-109 | an empty or `"undefined"` id is refused before any request; succeeds exactly on an ok reply and returns its body |
| Api.Step | lib/api.ts:125-151 | a settled poller ignores further ticks; a successful check keeps polling exactly on queued or running and resets the failure count; a failed check adds one; the count stays below three while polling |
| Api.TrailingFailures | lib/api.ts:130-144 | the number of failed checks at the end of the sequence, preceded by a success when shorter than the sequence |
| Api.KeepsPollingPrefix | lib/api.ts:122-150 | a prefix of outcomes that keep the poller waiting keeps it waiting |
| Api.PollingWhileContinuing | lib/api.ts:122-150 | while no check finished the job and no three consecutive checks failed, the poller waits with the trailing failure count (below three) and has reported each successful check's progress in order |
| Api.SettledStays | lib/api.ts:136-150 | once settled, the poller's state and reports no longer change |
| Api.SettledAfter | lib/api.ts:136-150 | the state and reports of a poller that settled after a prefix of the checks are final |
| Api.StepAfter | lib/api.ts:125-151 | one more check after a waiting prefix is one step from the trailing failure count, and reports that check's progress if it succeeded |
| Api.ResolvesOnCompleted | lib/api.ts:132-138 | the first `completed` status while waiting resolves the poller with it, after reporting its progress |
| Api.RejectsOnFailed | lib/api.ts:132-142 | a `failed` status while waiting rejects with its error or `Job failed`, after reporting its progress |
| Api.TwoTrailingFailures | lib/api.ts:144 | proof step for `GiveUpStep`: two failed checks at the end mean at least two trailing failures |
| Api.GiveUpStep | lib/api.ts:143-150 | a third consecutive failed check while waiting rejects with the give-up message and reports nothing |
| Api.GivesUpAfterThreeFailures | lib/api.ts:143-150 | the third consecutive failed check rejects with the give-up message |
| Api.FirstStop | lib/api.ts:125-151 | a poller that is no longer waiting stopped at a first check |
| Api.StopReason | lib/api.ts:136-150 | it stopped on a finished status or on a third consecutive failure |
| Api.RunCharacterised | lib/api.ts:111-154 | the poller waits exactly while the checks keep it waiting, and resolves exactly when a check reported `completed` while it waited |
| Api.PollJobCompletion | lib/api.ts:111-154 | an invalid id rejects at once and reports nothing; otherwise the loop ends in the state and reports of `Run`/`Reports` |
| Page.AtMostKeepsAll | app/page.tsx:34 | the `n <= 200` filter keeps a list whose values are all at most 200 |
| Page.ValidFrameNumbersAre | app/page.tsx:34 | fifty values, the `i`-th is `4i + 1`, ascending, and exactly the numbers 1..200 that are 1 mod 4 |
| Page.DefaultFramesOffered | app/page.tsx:21 | the default frame count 17 is offered |
| Page.Seed | app/page.tsx:94 | each seed lies in 1..999999 |
| Page.BatchIdsDistinct | app/page.tsx:95 | two entries of a batch never share an id, whatever the clock read |
| Page.BatchEntries | app/page.tsx:92-108 | one entry per batch item, the `i`-th with id `${now}-${i}` and its own timestamp |
| Page.BatchEntriesArePending | app/page.tsx:97-108 | every entry is pending, with progress 0, an empty job id, no video, and the request's prompts, thumbnail, resolution and frames; ids are distinct |
| Page.ProgressPatches | app/page.tsx:137-144 | one progress update per reported value, in order |
| Page.ProgressRun | app/page.tsx:140-143 | with the intended progress update (see Findings), a run of progress updates leaves the last reported progress and changes nothing else |
| Page.ProgressRunAsWritten | app/page.tsx:140-143 | as written, any report leaves progress and progress details undefined |
| Page.LifecycleKeepsId | app/page.tsx:131-171 | no update a job makes touches the entry's id |
| Page.JobOutcome | app/page.tsx:131-171 | an entry becomes completed, with progress 100 and the video, exactly when its job was submitted and resolved with at least one output; failed exactly when the submission or the polling failed; the job id is recorded on submission; other fields are kept; while polling, progress is the last report, with the intended progress update (see Findings) |
| Page.JobProgressAsWritten | app/page.tsx:137-144 | as written, an entry still polling after a report has undefined progress; with the intended update it has the last report |
| Page.BatchIds | app/page.tsx:95 | the `i`-th id is `${now}-${i}` |
| Page.BatchPatches | app/page.tsx:117-174 | one run of updates per batch item |
| Page.BatchPatchesAt | app/page.tsx:117-174 | the `i`-th run is that of the `i`-th item's job |
| Page.BatchResult | app/page.tsx:89-177 | after a batch of at most fifty entries, its entries lead the list newest first, each after its own job's updates, followed by the former entries that fit under the cap |
| Page.BatchIdsUnique | app/page.tsx:95 | the ids of a batch are pairwise distinct |
| Page.BatchPatchesKeepIds | app/page.tsx:117-174 | no job update of the batch sets an id |
| Page.WithoutId | app/page.tsx:199 | exactly the entries without the id remain, never more than before |
| Page.WithoutIdConcat | app/page.tsx:199 | deletion keeps the remaining entries in their order |
| Page.GeneratorPage.constructor | app/page.tsx:18-30 | empty prompt, the default negative prompt (the literal at line 19, `DefaultNegativePrompt`), 768x768, 17 frames, batch size 1, no image, not generating, nothing queued |
| Page.GeneratorPage.ApplyProgress | app/page.tsx:137-144 | the store takes each (corrected) progress update of the job in order |
| Page.GeneratorPage.Settle | app/page.tsx:145-165 | completed with the video when the result has an output, failed when polling rejected, nothing otherwise |
| Page.GeneratorPage.FollowSubmission | app/page.tsx:131-171 | the store takes the job id, every (corrected) progress update, then completion or failure; a failed submission only marks failure; the result says whether the job settled (submission failed, or the poller stopped waiting) |
| Page.GeneratorPage.FollowJob | app/page.tsx:118-171 | the entry takes all updates of its job, with the corrected progress update, submitted with its own seed; the result says whether that job settled |
| Page.GeneratorPage.AddBatch | app/page.tsx:89-112 | one pending entry per item is added in turn, and the `(id, seed)` list is returned in order |
| Page.GeneratorPage.RunBatch | app/page.tsx:114-177 | each entry follows its own job, with the corrected progress update, one after the other; the result says whether every job settled, which `Promise.allSettled` waits for |
| Page.BatchSettledStep | app/page.tsx:177 | proof step for `RunBatch`'s loop: the first `n + 1` jobs have settled exactly when the first `n` have and job `n` has |
| Page.GeneratorPage.GenerateBatch | app/page.tsx:89-177 | the batch's pending entries are added and each follows its own job (with the corrected progress update); the result says whether every job settled |
| Page.GeneratorPage.GenerateVideo | app/page.tsx:70-195 | no image or no prompt changes nothing; while generating, only the queued count grows by the batch size; otherwise the batch is added and run (with the corrected progress update); only when every job has settled does generation end and a non-zero queued count become the next batch size; while a job still polls, generation goes on and the queued count and batch size are kept |
| Page.GeneratorPage.DeleteHistoryItem | app/page.tsx:197-200 | the stored list loses every entry with the id and keeps the rest in order |

## Left out

- Page.GeneratorPage.ApplyProgress: applies the corrected progress update (`ProgressPatch`), not the one app/page.tsx:140-143 writes, which leaves progress and progress details undefined (see Findings); the as-written update is `ProgressPatchAsWritten`, and its effect is stated by `ProgressRunAsWritten` and `JobProgressAsWritten`.
- Page.GeneratorPage.FollowSubmission: its progress updates are the corrected ones, for the same reason; the as-written run is `Lifecycle` with `ProgressPatchAsWritten`.
- Page.GeneratorPage.FollowJob: inherits the corrected progress update through `JobPatches`.
- Page.GeneratorPage.RunBatch: every job's updates include the corrected progress update rather than the as-written one.
- Page.GeneratorPage.GenerateBatch: every job's updates, through `RunBatch`, use the corrected progress update rather than the as-written one, which leaves progress and progress details undefined.
- Page.GeneratorPage.GenerateVideo: the stored list it ensures is built with the corrected progress update; a job that ends still polling after a report holds the last reported progress there, where the program as written holds undefined.
- Page.BatchResult: stated for batches of at most fifty entries; a larger batch size (reachable through the queued count) evicts the batch's own first entries, and that case is not characterised.
- Page.GeneratorPage.GenerateVideo: its ensures give the stored list as `JobsRun` over `AddedAll`. The closed form (entries newest first, each after its own job's updates) is stated separately, by `Page.BatchResult` together with `Page.BatchPatchesAt` and `Page.BatchPatchesKeepIds`, and is not repeated in the method's contract.
- Concurrency: the jobs of a batch run concurrently in the program, with 500 ms between submissions. The model runs them one after the other. The order does not matter for the batch's own entries: they lead the list newest first with distinct ids, and `findIndex` takes the first match, so each job's updates land on its own entry (`Storage.UpdatedEachShape`, `Storage.AddedThenUpdated`). An older entry that happens to share a batch id is never reached, since the batch entry comes first.
- The re-dispatch of queued jobs (app/page.tsx:185) is left out; it is a `setTimeout` call. The hand-off of the queued count into the batch size is modelled. The queued count is read as it was when the call began, as the program's closure reads it.
- Page.GeneratorPage.GenerateVideo: a batch with a job still polling after the given replies returns with generation still on, which is where the program stays awaiting `Promise.allSettled` (app/page.tsx:177); the poller has no time-out, so a job that never settles keeps the page generating for good. The later end of such a call, once more replies arrive, is not modelled; later requests are calls that only add to the queued count.
- Timers are not modelled: the 3-second polling interval, the 1-second refresh of the history views and the 500 ms spacing. The poller is driven by a given sequence of replies, one per tick.
- The following are parameters rather than computed:
  - `fetch`, `loadWorkflow` and the JSON template file: the template and the service's replies;
  - `Date.now()` and `Math.random()`: a clock reading and an integer draw in 0..999998 per item;
  - calendar arithmetic for the two midnights: integers.
- `createThumbnail` (canvas drawing and floating-point scaling) and `fileToBase64` (`FileReader`) are not modelled. Their results are parameters. The failure path of `fileToBase64`, which ends a request without entries, is not modelled.
- The video object URL (`atob`, `Blob`, `URL.createObjectURL`) is a parameter. An exception thrown while decoding the video is not modelled.
- JSON numbers are integers only. Reply fields other than strings (such as a numeric `job_id`) are not modelled. An absent string field reads as the empty string, which is falsy as the absent field is.
- Parsing a corrupt stored value is not modelled: local storage holds the list itself, not its JSON text.
- The React render, `alert`, `console` and the page-wide progress display state (`currentProgress`, `currentProgressDetails`) are not modelled.
- The UI components, the styling configuration and the server-side proxy route are not part of this model.

## Findings

| source | as written | input that shows it | evidently intended | confidence | as-written member | corrected member |
|---|---|---|---|---|---|---|
| app/page.tsx:137-144 | the progress callback reads `.progress` and `.details` off the number the poller hands it (lib/api.ts:133 passes `status.progress`), so every progress update writes `progress: undefined` and `progressDetails: undefined` into the entry | a job whose first status check returns `running` with progress 40: the entry's progress becomes undefined instead of 40 | the entry's progress becomes the reported value | not executed | Page.JobProgressAsWritten | Page.JobOutcome |
