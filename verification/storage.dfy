/** The browser-side history of generation attempts (lib/storage.ts): a
    newest-first list of records kept under one key of the browser's
    local storage, capped at fifty entries. */
module Storage {
  import opened Util

  datatype Status = Pending | Completed | Failed

  datatype Resolution = Res768x768 | Res1024x1024

  datatype ProgressDetails = ProgressDetails(
    currentNode: Option<string>,
    nodesCompleted: Option<int>,
    nodesTotal: Option<int>,
    step: Option<string>)

  /** One generation attempt. `videoUrl`, `progress` and `progressDetails`
      may be undefined at run time, hence `Option`. */
  datatype GenerationHistory = GenerationHistory(
    id: string,
    jobId: string,
    prompt: string,
    negativePrompt: string,
    imagePreview: string,
    videoUrl: Option<string>,
    status: Status,
    timestamp: int,
    progress: Option<int>,
    progressDetails: Option<ProgressDetails>,
    resolution: Resolution,
    frames: int)

  /** `Partial<GenerationHistory>`: `Some(v)` for a key present in the
      object, with `v` its value (itself `None` when the value is
      undefined). */
  datatype Patch = Patch(
    id: Option<string>,
    jobId: Option<string>,
    prompt: Option<string>,
    negativePrompt: Option<string>,
    imagePreview: Option<string>,
    videoUrl: Option<Option<string>>,
    status: Option<Status>,
    timestamp: Option<int>,
    progress: Option<Option<int>>,
    progressDetails: Option<Option<ProgressDetails>>,
    resolution: Option<Resolution>,
    frames: Option<int>)

  const NoChanges: Patch :=
    Patch(None, None, None, None, None, None, None, None, None, None, None, None)

  /** The number of entries the store keeps. */
  const MaxEntries: nat := 50

  function Pick<T>(update: Option<T>, current: T): T {
    if update.Some? then update.value else current
  }

  /** `{ ...e, ...p }`: every key present in `p` overrides, every other
      field of `e` is kept. */
  function Merge(e: GenerationHistory, p: Patch): GenerationHistory {
    GenerationHistory(
      Pick(p.id, e.id),
      Pick(p.jobId, e.jobId),
      Pick(p.prompt, e.prompt),
      Pick(p.negativePrompt, e.negativePrompt),
      Pick(p.imagePreview, e.imagePreview),
      Pick(p.videoUrl, e.videoUrl),
      Pick(p.status, e.status),
      Pick(p.timestamp, e.timestamp),
      Pick(p.progress, e.progress),
      Pick(p.progressDetails, e.progressDetails),
      Pick(p.resolution, e.resolution),
      Pick(p.frames, e.frames))
  }

  /** The list `addToHistory` writes back: the new item in front of the
      former entries, the oldest one dropped once the list grew past the
      cap. */
  function Added(h: seq<GenerationHistory>, item: GenerationHistory): (r: seq<GenerationHistory>)
    ensures |r| == if |h| < MaxEntries then |h| + 1 else |h|
    ensures r[0] == item && r[1..] == h[..|r| - 1]
    ensures |h| <= MaxEntries ==> |r| <= MaxEntries
  {
    var pushed := [item] + h;
    if |pushed| > MaxEntries then pushed[..|pushed| - 1] else pushed
  }

  predicate Contains(h: seq<GenerationHistory>, id: string) {
    exists j :: 0 <= j < |h| && h[j].id == id
  }

  /** `findIndex(item => item.id === id)`, with `None` for -1. */
  function FirstIndex(h: seq<GenerationHistory>, id: string): (r: Option<nat>)
    ensures r.None? <==> !Contains(h, id)
    ensures r.Some? ==> r.value < |h| && h[r.value].id == id
    ensures r.Some? ==> forall j :: 0 <= j < r.value ==> h[j].id != id
  {
    if h == [] then None
    else if h[0].id == id then Some(0)
    else match FirstIndex(h[1..], id)
      case None => None
      case Some(k) => Some(k + 1)
  }

  /** The list `updateHistoryItem` produces: the first entry with the id
      merged with the patch, everything else as it was. */
  function Updated(h: seq<GenerationHistory>, id: string, p: Patch): (r: seq<GenerationHistory>)
    ensures |r| == |h|
  {
    match FirstIndex(h, id)
    case None => h
    case Some(k) => h[k := Merge(h[k], p)]
  }

  /** Updating an id nobody has changes nothing; otherwise exactly the
      first entry with the id takes the patch's keys and every other entry
      stays as it was. */
  lemma UpdatedFirstMatch(h: seq<GenerationHistory>, id: string, p: Patch)
    ensures !Contains(h, id) ==> Updated(h, id, p) == h
    ensures forall k :: 0 <= k < |h| && h[k].id == id && (forall j :: 0 <= j < k ==> h[j].id != id) ==>
      Updated(h, id, p)[k] == Merge(h[k], p) && (forall j :: 0 <= j < |h| && j != k ==> Updated(h, id, p)[j] == h[j])
  {
  }

  /** The entries stamped at or after `since`, in stored order. */
  function Since(h: seq<GenerationHistory>, since: int): (r: seq<GenerationHistory>)
    ensures |r| <= |h|
    ensures forall x :: x in r <==> x in h && x.timestamp >= since
  {
    if h == [] then []
    else (if h[0].timestamp >= since then [h[0]] else []) + Since(h[1..], since)
  }

  /** The entries stamped in `[from, until)`, in stored order. */
  function Within(h: seq<GenerationHistory>, from: int, until: int): (r: seq<GenerationHistory>)
    ensures |r| <= |h|
    ensures forall x :: x in r <==> x in h && from <= x.timestamp < until
  {
    if h == [] then []
    else (if from <= h[0].timestamp < until then [h[0]] else []) + Within(h[1..], from, until)
  }

  /** Filtering keeps the stored order: the filter of a concatenation is
      the concatenation of the filters. */
  lemma {:induction false} SinceConcat(a: seq<GenerationHistory>, b: seq<GenerationHistory>, since: int)
    ensures Since(a + b, since) == Since(a, since) + Since(b, since)
  {
    if a != [] {
      assert (a + b)[1..] == a[1..] + b;
      SinceConcat(a[1..], b, since);
    } else {
      assert a + b == b;
    }
  }

  lemma {:induction false} WithinConcat(a: seq<GenerationHistory>, b: seq<GenerationHistory>, from: int, until: int)
    ensures Within(a + b, from, until) == Within(a, from, until) + Within(b, from, until)
  {
    if a != [] {
      assert (a + b)[1..] == a[1..] + b;
      WithinConcat(a[1..], b, from, until);
    } else {
      assert a + b == b;
    }
  }

  /** With yesterday's midnight at or before today's, the entries since
      yesterday's midnight are exactly today's and yesterday's together,
      counted with multiplicity. */
  lemma {:induction false} SincePartition(h: seq<GenerationHistory>, yesterday: int, today: int)
    requires yesterday <= today
    ensures multiset(Since(h, yesterday)) == multiset(Since(h, today)) + multiset(Within(h, yesterday, today))
  {
    if h != [] {
      SincePartition(h[1..], yesterday, today);
    }
  }

  // ---------------------------------------------------------------------
  // Successive calls

  function Min(a: int, b: int): int {
    if a <= b then a else b
  }

  /** The stored list after `addToHistory` of each item in turn. */
  function AddedAll(h: seq<GenerationHistory>, items: seq<GenerationHistory>): seq<GenerationHistory> {
    if items == [] then h
    else Added(AddedAll(h, items[..|items| - 1]), items[|items| - 1])
  }

  /** Adding items one by one grows the list by one per item up to the
      cap and never shrinks it. */
  lemma {:induction false} AddedAllLength(h: seq<GenerationHistory>, items: seq<GenerationHistory>)
    ensures |AddedAll(h, items)| == if |h| >= MaxEntries then |h| else Min(MaxEntries, |h| + |items|)
  {
    if items != [] {
      AddedAllLength(h, items[..|items| - 1]);
    }
  }

  /** After one add, every former entry that stays sits one place further
      back. */
  lemma AddedShifts(g: seq<GenerationHistory>, item: GenerationHistory)
    ensures forall i :: 1 <= i < |Added(g, item)| ==> Added(g, item)[i] == g[i - 1]
  {
    var r := Added(g, item);
    forall i | 1 <= i < |r| ensures r[i] == g[i - 1] {
      assert r[1..][i - 1] == g[..|r| - 1][i - 1];
    }
  }

  /** Adding at most fifty items one by one leaves them newest first at
      the front of the list. */
  lemma {:induction false} AddedAllFront(h: seq<GenerationHistory>, items: seq<GenerationHistory>)
    requires |items| <= MaxEntries
    ensures |items| <= |AddedAll(h, items)|
    ensures forall i :: 0 <= i < |items| ==> AddedAll(h, items)[i] == items[|items| - 1 - i]
  {
    AddedAllLength(h, items);
    if items != [] {
      var n := |items|;
      var before := items[..n - 1];
      AddedAllFront(h, before);
      var g := AddedAll(h, before);
      var r := Added(g, items[n - 1]);
      assert r == AddedAll(h, items);
      AddedShifts(g, items[n - 1]);
      forall i | 1 <= i < n ensures r[i] == items[n - 1 - i] {
        assert r[i] == g[i - 1];
        assert before[n - 2 - (i - 1)] == items[n - 1 - i];
      }
    }
  }

  /** Behind the added items come the former entries, newest first, as
      many as still fit. */
  lemma {:induction false} AddedAllBack(h: seq<GenerationHistory>, items: seq<GenerationHistory>)
    ensures |AddedAll(h, items)| <= |h| + |items|
    ensures forall i :: |items| <= i < |AddedAll(h, items)| ==> AddedAll(h, items)[i] == h[i - |items|]
  {
    if items != [] {
      var n := |items|;
      var before := items[..n - 1];
      AddedAllBack(h, before);
      var g := AddedAll(h, before);
      var r := Added(g, items[n - 1]);
      assert r == AddedAll(h, items);
      AddedShifts(g, items[n - 1]);
      forall i | n <= i < |r| ensures r[i] == h[i - n] {
        assert r[i] == g[i - 1];
      }
    }
  }

  /** An entry after the given updates, in order. */
  function Patched(e: GenerationHistory, ps: seq<Patch>): GenerationHistory {
    if ps == [] then e else Merge(Patched(e, ps[..|ps| - 1]), ps[|ps| - 1])
  }

  lemma {:induction false} PatchedConcat(e: GenerationHistory, a: seq<Patch>, b: seq<Patch>)
    ensures Patched(e, a + b) == Patched(Patched(e, a), b)
  {
    if b == [] {
      assert a + b == a;
    } else {
      assert (a + b)[..|a + b| - 1] == a + b[..|b| - 1];
      PatchedConcat(e, a, b[..|b| - 1]);
    }
  }

  /** Updates that leave the id alone keep the entry's id. */
  lemma {:induction false} PatchedKeepsId(e: GenerationHistory, ps: seq<Patch>)
    requires forall i :: 0 <= i < |ps| ==> ps[i].id.None?
    ensures Patched(e, ps).id == e.id
  {
    if ps != [] {
      PatchedKeepsId(e, ps[..|ps| - 1]);
    }
  }

  /** The stored list after `updateHistoryItem(id, p)` for each update in
      turn. */
  function UpdatedAll(h: seq<GenerationHistory>, id: string, ps: seq<Patch>): seq<GenerationHistory> {
    if ps == [] then h else Updated(UpdatedAll(h, id, ps[..|ps| - 1]), id, ps[|ps| - 1])
  }

  lemma {:induction false} UpdatedAllConcat(h: seq<GenerationHistory>, id: string, a: seq<Patch>, b: seq<Patch>)
    ensures UpdatedAll(h, id, a + b) == UpdatedAll(UpdatedAll(h, id, a), id, b)
  {
    if b == [] {
      assert a + b == a;
    } else {
      assert (a + b)[..|a + b| - 1] == a + b[..|b| - 1];
      UpdatedAllConcat(h, id, a, b[..|b| - 1]);
    }
  }

  /** When the entry at `k` is the first with the id and the updates keep
      ids, all updates land on that entry and nowhere else. */
  lemma {:induction false} UpdatedAllAt(h: seq<GenerationHistory>, id: string, k: nat, ps: seq<Patch>)
    requires k < |h| && h[k].id == id && forall j :: 0 <= j < k ==> h[j].id != id
    requires forall i :: 0 <= i < |ps| ==> ps[i].id.None?
    ensures UpdatedAll(h, id, ps) == h[k := Patched(h[k], ps)]
  {
    if ps != [] {
      var before := ps[..|ps| - 1];
      UpdatedAllAt(h, id, k, before);
      PatchedKeepsId(h[k], before);
      var g := h[k := Patched(h[k], before)];
      assert g[k].id == id && forall j :: 0 <= j < k ==> g[j].id != id;
      UpdatedFirstMatch(g, id, ps[|ps| - 1]);
    }
  }

  /** The stored list after the updates of the first `n` entries, the
      `i`-th entry's updates `patches[i]` addressed to `ids[i]`. */
  function UpdatedEach(h: seq<GenerationHistory>, ids: seq<string>, patches: seq<seq<Patch>>, n: nat): seq<GenerationHistory>
    requires n <= |ids| == |patches|
  {
    if n == 0 then h else UpdatedAll(UpdatedEach(h, ids, patches, n - 1), ids[n - 1], patches[n - 1])
  }

  /** The positions of a batch before and after the updates of its `n`-th
      entry: how the list looks when the first `n - 1` entries are done
      (`r`), that entry `n - 1` is found first at its own position, and how
      the list looks once its updates land there (`r2`). */
  lemma ShapeStep(g: seq<GenerationHistory>, r: seq<GenerationHistory>, ids: seq<string>, patches: seq<seq<Patch>>, n: nat)
    requires 0 < n <= |ids| == |patches| <= |g|
    requires forall i, j :: 0 <= i < j < |ids| ==> ids[i] != ids[j]
    requires forall i :: 0 <= i < |ids| ==> g[|ids| - 1 - i].id == ids[i]
    requires |r| == |g|
    requires forall q :: 0 <= q < |g| && (q < |ids| - (n - 1) || |ids| <= q) ==> r[q] == g[q]
    requires forall i :: 0 <= i < n - 1 ==> r[|ids| - 1 - i] == Patched(g[|ids| - 1 - i], patches[i])
    ensures r[|ids| - n] == g[|ids| - n] && r[|ids| - n].id == ids[n - 1]
    ensures forall j :: 0 <= j < |ids| - n ==> r[j].id != ids[n - 1]
    ensures var r2 := r[|ids| - n := Patched(g[|ids| - n], patches[n - 1])];
      && (forall q :: 0 <= q < |g| && (q < |ids| - n || |ids| <= q) ==> r2[q] == g[q])
      && (forall i :: 0 <= i < n ==> r2[|ids| - 1 - i] == Patched(g[|ids| - 1 - i], patches[i]))
  {
    var b := |ids|;
    forall j | 0 <= j < b - n ensures r[j].id != ids[n - 1] {
      var i := b - 1 - j;
      assert r[j] == g[j];
      assert g[b - 1 - i].id == ids[i];
      assert ids[n - 1] != ids[i];
    }
    assert g[b - 1 - (n - 1)].id == ids[n - 1];
  }

  /** With entries of distinct ids newest first at the front of the list,
      the `i`-th entry's updates land on it, at position `|ids| - 1 - i`,
      and nothing else changes. */
  lemma {:induction false} UpdatedEachShape(g: seq<GenerationHistory>, ids: seq<string>, patches: seq<seq<Patch>>, n: nat)
    requires n <= |ids| == |patches| <= |g|
    requires forall i, j :: 0 <= i < j < |ids| ==> ids[i] != ids[j]
    requires forall i :: 0 <= i < |ids| ==> g[|ids| - 1 - i].id == ids[i]
    requires forall i, q :: 0 <= i < |patches| && 0 <= q < |patches[i]| ==> patches[i][q].id.None?
    ensures |UpdatedEach(g, ids, patches, n)| == |g|
    ensures forall q :: 0 <= q < |g| && (q < |ids| - n || |ids| <= q) ==> UpdatedEach(g, ids, patches, n)[q] == g[q]
    ensures forall i :: 0 <= i < n ==>
      UpdatedEach(g, ids, patches, n)[|ids| - 1 - i] == Patched(g[|ids| - 1 - i], patches[i])
  {
    if n > 0 {
      UpdatedEachShape(g, ids, patches, n - 1);
      var r := UpdatedEach(g, ids, patches, n - 1);
      ShapeStep(g, r, ids, patches, n);
      var k := |ids| - n;
      UpdatedAllAt(r, ids[n - 1], k, patches[n - 1]);
      assert UpdatedEach(g, ids, patches, n) == r[k := Patched(g[k], patches[n - 1])];
    }
  }

  /** Adding a batch of entries with distinct ids and then applying each
      entry's id-preserving updates: the entries lead the list newest
      first, each after its own updates, followed by the former entries
      that still fit. */
  lemma AddedThenUpdated(h: seq<GenerationHistory>, entries: seq<GenerationHistory>, ids: seq<string>, patches: seq<seq<Patch>>, b: nat)
    requires b == |entries| == |ids| == |patches| <= MaxEntries
    requires forall i :: 0 <= i < b ==> entries[i].id == ids[i]
    requires forall i, j :: 0 <= i < j < b ==> ids[i] != ids[j]
    requires forall i, q :: 0 <= i < b && 0 <= q < |patches[i]| ==> patches[i][q].id.None?
    ensures var r := UpdatedEach(AddedAll(h, entries), ids, patches, b);
      && |r| == (if |h| >= MaxEntries then |h| else Min(MaxEntries, |h| + b))
      && (forall i :: 0 <= i < b ==> r[b - 1 - i] == Patched(entries[i], patches[i]))
      && b <= |r| && r[b..] == h[..|r| - b]
  {
    var g := AddedAll(h, entries);
    AddedAllLength(h, entries);
    AddedAllReversed(h, entries);
    UpdatedEachShape(g, ids, patches, b);
    var r := UpdatedEach(g, ids, patches, b);
    assert forall q :: 0 <= q < |r| - b ==> r[b..][q] == g[b..][q];
  }

  /** `AddedAllFront` read from the items' side: the `i`-th item added sits
      at `|items| - 1 - i`, and the former entries follow the items. */
  lemma AddedAllReversed(h: seq<GenerationHistory>, items: seq<GenerationHistory>)
    requires |items| <= MaxEntries
    ensures |items| <= |AddedAll(h, items)| <= |h| + |items|
    ensures forall i :: 0 <= i < |items| ==> AddedAll(h, items)[|items| - 1 - i] == items[i]
    ensures AddedAll(h, items)[|items|..] == h[..|AddedAll(h, items)| - |items|]
  {
    var g := AddedAll(h, items);
    var b := |items|;
    AddedAllFront(h, items);
    AddedAllBack(h, items);
    forall i | 0 <= i < b ensures g[b - 1 - i] == items[i] {
      var q := b - 1 - i;
      assert g[q] == items[b - 1 - q];
      assert b - 1 - q == i;
    }
    assert forall q :: 0 <= q < |g| - b ==> g[b..][q] == g[b + q] == h[q];
  }

  /** The browser's local storage under the history key. */
  class HistoryStore {
    /** Whether a `window` exists (false while rendering on the server). */
    const inBrowser: bool
    /** The stored list, `None` while nothing has been stored. */
    var stored: Option<seq<GenerationHistory>>

    constructor (inBrowser: bool, stored: Option<seq<GenerationHistory>>)
      ensures this.inBrowser == inBrowser && this.stored == stored
    {
      this.inBrowser := inBrowser;
      this.stored := stored;
    }

    /** What `getHistory` reads. */
    function History(): (h: seq<GenerationHistory>)
      reads this
    {
      if inBrowser && stored.Some? then stored.value else []
    }

    method GetHistory() returns (h: seq<GenerationHistory>)
      ensures h == History()
      ensures !inBrowser || stored.None? ==> h == []
    {
      if !inBrowser {
        return [];
      }
      h := if stored.Some? then stored.value else [];
    }

    method SaveHistory(h: seq<GenerationHistory>)
      modifies this
      ensures stored == if inBrowser then Some(h) else old(stored)
      ensures inBrowser ==> History() == h
    {
      if !inBrowser {
        return;
      }
      stored := Some(h);
    }

    method AddToHistory(item: GenerationHistory)
      modifies this
      ensures stored == if inBrowser then Some(Added(old(History()), item)) else old(stored)
      ensures |old(History())| <= MaxEntries ==> |History()| <= MaxEntries
    {
      var history := GetHistory();
      history := [item] + history;
      if |history| > MaxEntries {
        history := history[..|history| - 1];
      }
      SaveHistory(history);
    }

    method UpdateHistoryItem(id: string, updates: Patch)
      modifies this
      ensures !Contains(old(History()), id) ==> stored == old(stored)
      ensures Contains(old(History()), id) ==> stored == Some(Updated(old(History()), id, updates))
    {
      var history := GetHistory();
      var index := FirstIndex(history, id);
      if index.Some? {
        history := history[index.value := Merge(history[index.value], updates)];
        SaveHistory(history);
      }
    }

    /** `getTodayHistory`, with today's local midnight passed in. */
    function TodayHistory(today: int): (r: seq<GenerationHistory>)
      reads this
      ensures forall x :: x in r <==> x in History() && x.timestamp >= today
    {
      Since(History(), today)
    }

    /** `getYesterdayHistory`, with both local midnights passed in. */
    function YesterdayHistory(yesterday: int, today: int): (r: seq<GenerationHistory>)
      reads this
      ensures forall x :: x in r <==> x in History() && yesterday <= x.timestamp < today
      ensures forall x :: x in r ==> x !in TodayHistory(today)
    {
      Within(History(), yesterday, today)
    }
  }
}
