/** The failed-download detector under repeated polling: any sequence of `Check` and
    `ProcessFailed` calls on one tracked download, with the client's report and the history
    log free to change between calls. */
module Polling {
  import opened History
  import opened TrackedDownloads
  import opened FailedDownload

  /** One call into the detector, with what its grabbed lookup returns at that moment. */
  datatype Tick =
    | CheckTick(item: DownloadItem, grabbed: seq<HistoryRecord>)
    | ProcessTick(grabbed: seq<HistoryRecord>)

  function TickEffect(state: TrackedDownloadState, t: Tick): (e: Effect) {
    match t
    case CheckTick(item, grabbed) => CheckEffect(state, item, grabbed)
    case ProcessTick(grabbed) => ProcessEffect(state, grabbed)
  }

  /** The final state after `ticks`, and how many failure events they published. */
  function Run(state: TrackedDownloadState, ticks: seq<Tick>): (r: (TrackedDownloadState, nat))
    decreases |ticks|
  {
    if ticks == [] then (state, 0)
    else
      var e := TickEffect(state, ticks[0]);
      var rest := Run(e.next, ticks[1..]);
      (rest.0, rest.1 + if e.publishes then 1 else 0)
  }

  /** The forward-only order Downloading -> FailedPending -> Failed. */
  predicate Reaches(s: TrackedDownloadState, t: TrackedDownloadState) {
    s == t ||
    (s == TrackedDownloadState.Downloading && (t == FailedPending || t == TrackedDownloadState.Failed)) ||
    (s == FailedPending && t == TrackedDownloadState.Failed)
  }

  /** Once a download has left Downloading and FailedPending, polling changes nothing. */
  lemma {:induction false} RunInertOutsideDetection(state: TrackedDownloadState, ticks: seq<Tick>)
    decreases |ticks|
    requires state != TrackedDownloadState.Downloading && state != FailedPending
    ensures Run(state, ticks) == (state, 0)
  {
    if ticks != [] {
      RunInertOutsideDetection(state, ticks[1..]);
    }
  }

  /** However often it is polled, a tracked download publishes at most one failure event, and
      one that did publish ends up Failed. */
  lemma {:induction false} RunPublishesAtMostOnce(state: TrackedDownloadState, ticks: seq<Tick>)
    decreases |ticks|
    ensures Run(state, ticks).1 <= 1
    ensures Run(state, ticks).1 == 1 ==> Run(state, ticks).0 == TrackedDownloadState.Failed
  {
    if ticks != [] {
      var e := TickEffect(state, ticks[0]);
      if e.publishes {
        RunInertOutsideDetection(e.next, ticks[1..]);
      } else {
        RunPublishesAtMostOnce(e.next, ticks[1..]);
      }
    }
  }

  /** Polling only moves a download forward: never back to Downloading, never out of Failed. */
  lemma {:induction false} RunMovesForward(state: TrackedDownloadState, ticks: seq<Tick>)
    decreases |ticks|
    ensures Reaches(state, Run(state, ticks).0)
  {
    if ticks != [] {
      var e := TickEffect(state, ticks[0]);
      RunMovesForward(e.next, ticks[1..]);
    }
  }

  /** A download that has no grabbed records whenever it is looked up is never failed: no
      state change and no event, whatever the client reports. */
  lemma {:induction false} RunWithoutGrabIsInert(state: TrackedDownloadState, ticks: seq<Tick>)
    decreases |ticks|
    requires forall k :: 0 <= k < |ticks| ==> ticks[k].grabbed == []
    ensures Run(state, ticks) == (state, 0)
  {
    if ticks != [] {
      RunWithoutGrabIsInert(state, ticks[1..]);
    }
  }

  /** A download that starts in Downloading is failed only by a `ProcessFailed` call that
      comes after a `Check` found it grabbed. */
  lemma {:induction false} RunFailsOnlyAfterCheck(ticks: seq<Tick>)
    requires Run(TrackedDownloadState.Downloading, ticks).1 == 1
    ensures exists i, j :: 0 <= i < j < |ticks| && ticks[i].CheckTick? && ticks[i].grabbed != [] && ticks[j].ProcessTick?
  {
    var e := TickEffect(TrackedDownloadState.Downloading, ticks[0]);
    if e.next == TrackedDownloadState.Downloading {
      RunFailsOnlyAfterCheck(ticks[1..]);
      var i, j :| 0 <= i < j < |ticks[1..]| && ticks[1..][i].CheckTick? && ticks[1..][i].grabbed != [] && ticks[1..][j].ProcessTick?;
      assert ticks[i + 1] == ticks[1..][i] && ticks[j + 1] == ticks[1..][j];
    } else {
      assert ticks[0].CheckTick? && ticks[0].grabbed != [];
      var j := PendingPublishesOnProcess(ticks[1..]);
      assert ticks[j + 1] == ticks[1..][j];
    }
  }

  /** A FailedPending download publishes only through a `ProcessFailed` call; returns its index. */
  lemma {:induction false} PendingPublishesOnProcess(ticks: seq<Tick>) returns (j: nat)
    requires Run(FailedPending, ticks).1 == 1
    ensures j < |ticks| && ticks[j].ProcessTick?
  {
    if ticks[0].ProcessTick? {
      return 0;
    }
    var k := PendingPublishesOnProcess(ticks[1..]);
    assert ticks[k + 1] == ticks[1..][k];
    return k + 1;
  }
}
