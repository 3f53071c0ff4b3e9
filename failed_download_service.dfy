/** The failed-download detector: `Check` and `ProcessFailed` move a tracked download along
    Downloading -> FailedPending -> Failed, and the two manual `MarkAsFailed` paths publish
    directly. Each method is tied to a pure description of its effect; the properties the
    service promises are proved about those descriptions. */
module FailedDownload {
  import opened Wrappers
  import opened Strings
  import opened History
  import opened TrackedDownloads
  import opened Messaging

  const ManualMessage := "Manually marked as failed"
  const EncryptedMessage := "Encrypted download detected"
  const DefaultFailureMessage := "Failed download detected"
  const NotGrabbedWarning := "Download wasn't grabbed by sonarr, skipping"

  /** Why a manual mark-by-history-id throws: the id is unknown to the history log, or the
      record's download has no grabbed records left (so the event has no first record). */
  datatype MarkError = HistoryNotFound | NoGrabbedHistory

  /** What one call does to a tracked download: its next state, the warnings it attaches,
      and whether it publishes a failure event. */
  datatype Effect = Effect(next: TrackedDownloadState, warnings: seq<string>, publishes: bool)

  /** The client reports something that looks like a failure. */
  predicate Triggered(item: DownloadItem) {
    item.isEncrypted || item.status == DownloadItemStatus.Failed
  }

  /** The effect of `Check` on a download in `state` whose grabbed lookup yields `grabbed`. */
  function CheckEffect(state: TrackedDownloadState, item: DownloadItem, grabbed: seq<HistoryRecord>): (e: Effect) {
    if state != TrackedDownloadState.Downloading then Effect(state, [], false)
    else if !Triggered(item) then Effect(state, [], false)
    else if grabbed == [] then Effect(state, [NotGrabbedWarning], false)
    else Effect(FailedPending, [], false)
  }

  /** The effect of `ProcessFailed` on a download in `state` whose grabbed lookup yields `grabbed`. */
  function ProcessEffect(state: TrackedDownloadState, grabbed: seq<HistoryRecord>): (e: Effect) {
    if state != FailedPending || grabbed == [] then Effect(state, [], false)
    else Effect(TrackedDownloadState.Failed, [], true)
  }

  /** The failure message `ProcessFailed` attaches to the event. It is never blank, and it is
      one of the two fixed texts or, verbatim, the message the client reported with a failure. */
  function FailureMessage(item: DownloadItem): (m: string)
    ensures !IsNullOrWhiteSpace(Some(m))
    ensures m == EncryptedMessage || m == DefaultFailureMessage ||
            (item.status == DownloadItemStatus.Failed && item.message == Some(m))
  {
    NotBlankWhenSomeCharIsNot(EncryptedMessage, 0);
    NotBlankWhenSomeCharIsNot(DefaultFailureMessage, 0);
    if item.isEncrypted then EncryptedMessage
    else if item.status == DownloadItemStatus.Failed && !IsNullOrWhiteSpace(item.message) then item.message.value
    else DefaultFailureMessage
  }

  /** `historyItems.Select(h => h.EpisodeId)`: one episode id per record, in order. */
  function EpisodeIds(items: seq<HistoryRecord>): (ids: seq<int>)
    ensures |ids| == |items|
    ensures forall i :: 0 <= i < |items| ==> ids[i] == items[i].episodeId
  {
    if items == [] then [] else [items[0].episodeId] + EpisodeIds(items[1..])
  }

  /** The event built from a non-empty list of history records: the singular fields come from
      the first record, the episode ids from all of them, in order. */
  function DownloadFailedEventFor(items: seq<HistoryRecord>, message: string, trackedDownload: Option<TrackedDownload>): (e: DownloadFailedEvent)
    requires |items| > 0
    ensures |e.episodeIds| == |items|
    ensures forall i :: 0 <= i < |items| ==> e.episodeIds[i] == items[i].episodeId
    ensures e.seriesId == items[0].seriesId && e.quality == items[0].quality
    ensures e.sourceTitle == items[0].sourceTitle && e.downloadId == items[0].downloadId
    ensures e.language == items[0].language && e.data == items[0].data
    ensures DownloadClientKey in items[0].data ==> e.downloadClient == Some(items[0].data[DownloadClientKey])
    ensures DownloadClientKey !in items[0].data ==> e.downloadClient == None
    ensures e.message == message && e.trackedDownload == trackedDownload
  {
    var first := items[0];
    DownloadFailedEvent(
      first.seriesId,
      EpisodeIds(items),
      first.quality,
      first.sourceTitle,
      if DownloadClientKey in first.data then Some(first.data[DownloadClientKey]) else None,
      first.downloadId,
      message,
      first.data,
      trackedDownload,
      first.language)
  }

  /** The records `MarkAsFailed(historyId)` publishes, or the error it throws. */
  function ManualFailureSet(log: seq<HistoryRecord>, historyId: int): (r: Result<seq<HistoryRecord>, MarkError>)
    ensures r.Success? ==> |r.value| > 0
    ensures r == Failure(HistoryNotFound) <==> forall h :: h in log ==> h.id != historyId
  {
    match Get(log, historyId)
    case None => Failure(HistoryNotFound)
    case Some(h) =>
      if IsNullOrWhiteSpace(h.downloadId) then Success([h])
      else
        var grabbed := Find(log, h.downloadId.value, Grabbed);
        if grabbed == [] then Failure(NoGrabbedHistory) else Success(grabbed)
  }

  class FailedDownloadService {
    const historyService: HistoryService
    const eventAggregator: EventAggregator

    constructor (historyService: HistoryService, eventAggregator: EventAggregator)
      ensures this.historyService == historyService && this.eventAggregator == eventAggregator
    {
      this.historyService := historyService;
      this.eventAggregator := eventAggregator;
    }

    /** Manual override for one history record: publishes the record's whole grab (or the
        record alone when it has no download id), or throws. */
    method MarkAsFailedByHistoryId(historyId: int) returns (outcome: Outcome<MarkError>)
      modifies eventAggregator
      ensures var r := ManualFailureSet(historyService.records, historyId);
              outcome == (if r.Success? then Pass else Fail(r.error)) &&
              eventAggregator.published == old(eventAggregator.published) +
                (if r.Success? then [DownloadFailedEventFor(r.value, ManualMessage, None)] else [])
    {
      var history := Get(historyService.records, historyId);
      if history.None? {
        return Fail(HistoryNotFound);
      }
      var downloadId := history.value.downloadId;
      if IsNullOrWhiteSpace(downloadId) {
        PublishDownloadFailedEvent([history.value], ManualMessage, None);
      } else {
        var grabbedHistory := Find(historyService.records, downloadId.value, Grabbed);
        if grabbedHistory == [] {
          return Fail(NoGrabbedHistory);
        }
        PublishDownloadFailedEvent(grabbedHistory, ManualMessage, None);
      }
      return Pass;
    }

    /** Manual override for a download id: publishes one event when the download has grabbed
        records, and nothing otherwise. */
    method MarkAsFailedByDownloadId(downloadId: string)
      modifies eventAggregator
      ensures var history := Find(historyService.records, downloadId, Grabbed);
              eventAggregator.published == old(eventAggregator.published) +
                (if history != [] then [DownloadFailedEventFor(history, ManualMessage, None)] else [])
    {
      var history := Find(historyService.records, downloadId, Grabbed);
      if history != [] {
        PublishDownloadFailedEvent(history, ManualMessage, None);
      }
    }

    /** Detection pass: a downloading item the client reports as encrypted or failed becomes
        FailedPending when the application grabbed it, and gets a warning when it did not. */
    method Check(trackedDownload: TrackedDownload)
      modifies trackedDownload
      ensures var e := CheckEffect(old(trackedDownload.state), trackedDownload.downloadItem,
                                   Find(historyService.records, trackedDownload.downloadItem.downloadId, Grabbed));
              trackedDownload.state == e.next &&
              trackedDownload.statusMessages == old(trackedDownload.statusMessages) + e.warnings
      ensures trackedDownload.downloadItem == old(trackedDownload.downloadItem)
      ensures eventAggregator.published == old(eventAggregator.published)
    {
      if trackedDownload.state != TrackedDownloadState.Downloading {
        return;
      }
      if trackedDownload.downloadItem.isEncrypted ||
         trackedDownload.downloadItem.status == DownloadItemStatus.Failed
      {
        var grabbedItems := Find(historyService.records, trackedDownload.downloadItem.downloadId, Grabbed);
        if grabbedItems == [] {
          trackedDownload.Warn(NotGrabbedWarning);
          return;
        }
        trackedDownload.state := FailedPending;
      }
    }

    /** Finalisation pass: a FailedPending download that still has grabbed records becomes
        Failed and one event, carrying the download, is published. */
    method ProcessFailed(trackedDownload: TrackedDownload)
      modifies trackedDownload, eventAggregator
      ensures var grabbed := Find(historyService.records, trackedDownload.downloadItem.downloadId, Grabbed);
              var e := ProcessEffect(old(trackedDownload.state), grabbed);
              trackedDownload.state == e.next &&
              eventAggregator.published == old(eventAggregator.published) +
                (if e.publishes
                 then [DownloadFailedEventFor(grabbed, FailureMessage(trackedDownload.downloadItem), Some(trackedDownload))]
                 else [])
      ensures trackedDownload.downloadItem == old(trackedDownload.downloadItem)
      ensures trackedDownload.statusMessages == old(trackedDownload.statusMessages)
    {
      if trackedDownload.state != FailedPending {
        return;
      }
      var grabbedItems := Find(historyService.records, trackedDownload.downloadItem.downloadId, Grabbed);
      if grabbedItems == [] {
        return;
      }
      var failure := FailureMessage(trackedDownload.downloadItem);
      trackedDownload.state := TrackedDownloadState.Failed;
      PublishDownloadFailedEvent(grabbedItems, failure, Some(trackedDownload));
    }

    /** Builds the event from the records and publishes it; `First()` needs a record. */
    method PublishDownloadFailedEvent(historyItems: seq<HistoryRecord>, message: string, trackedDownload: Option<TrackedDownload>)
      requires |historyItems| > 0
      modifies eventAggregator
      ensures eventAggregator.published == old(eventAggregator.published) +
                [DownloadFailedEventFor(historyItems, message, trackedDownload)]
    {
      var downloadFailedEvent := DownloadFailedEventFor(historyItems, message, trackedDownload);
      eventAggregator.PublishEvent(downloadFailedEvent);
    }
  }

  // Properties of the detector, stated on the effect descriptions the methods follow.

  /** `Check` does nothing at all unless the download is still downloading. */
  lemma CheckOnlyWhileDownloading(state: TrackedDownloadState, item: DownloadItem, grabbed: seq<HistoryRecord>)
    requires state != TrackedDownloadState.Downloading
    ensures CheckEffect(state, item, grabbed) == Effect(state, [], false)
  {
  }

  /** `Check` never publishes, and the only move it makes is Downloading -> FailedPending (so it
      never fails a download outright); from Downloading it makes that move exactly when the
      client reports a failure and the download was grabbed. */
  lemma CheckMarksPendingExactly(state: TrackedDownloadState, item: DownloadItem, grabbed: seq<HistoryRecord>)
    ensures var e := CheckEffect(state, item, grabbed);
            !e.publishes &&
            (e.next != state ==> state == TrackedDownloadState.Downloading && e.next == FailedPending) &&
            (state == TrackedDownloadState.Downloading ==>
              (e.next == FailedPending <==> Triggered(item) && grabbed != []))
  {
  }

  /** A triggered `Check` with no grabbed records attaches exactly one warning and keeps the
      state; in every other case it attaches none. */
  lemma CheckWarnsWhenNotGrabbed(state: TrackedDownloadState, item: DownloadItem, grabbed: seq<HistoryRecord>)
    ensures var e := CheckEffect(state, item, grabbed);
            if state == TrackedDownloadState.Downloading && Triggered(item) && grabbed == []
            then e.warnings == [NotGrabbedWarning] && e.next == state
            else e.warnings == []
  {
  }

  /** `ProcessFailed` does nothing unless the download is FailedPending and still has grabbed
      records; then it fails the download and publishes once. So a Downloading download is
      never moved straight to Failed. */
  lemma ProcessOnlyFromPending(state: TrackedDownloadState, grabbed: seq<HistoryRecord>)
    ensures var e := ProcessEffect(state, grabbed);
            e.warnings == [] &&
            (e.publishes <==> state == FailedPending && grabbed != []) &&
            (e.publishes ==> e.next == TrackedDownloadState.Failed) &&
            (!e.publishes ==> e.next == state)
  {
  }

  /** A second `ProcessFailed` after one that published publishes nothing, whatever the history
      log holds by then, and the download stays Failed. */
  lemma ProcessFailedIdempotent(state: TrackedDownloadState, first: seq<HistoryRecord>, second: seq<HistoryRecord>)
    requires ProcessEffect(state, first).publishes
    ensures var again := ProcessEffect(ProcessEffect(state, first).next, second);
            !again.publishes && again.next == TrackedDownloadState.Failed
  {
  }

  /** The precedence of failure messages: encryption wins over everything; then a failed status
      with a message that is not blank gives that message verbatim; otherwise the default. */
  lemma FailureMessagePrecedence(item: DownloadItem)
    ensures item.isEncrypted ==> FailureMessage(item) == EncryptedMessage
    ensures !item.isEncrypted && item.status == DownloadItemStatus.Failed && !IsNullOrWhiteSpace(item.message) ==>
              Some(FailureMessage(item)) == item.message
    ensures !item.isEncrypted && (item.status != DownloadItemStatus.Failed || IsNullOrWhiteSpace(item.message)) ==>
              FailureMessage(item) == DefaultFailureMessage
  {
  }

  /** A history record with a blank download id is published alone: its event names just
      that record's episode and carries no tracked download. */
  lemma MarkByIdBlankDownloadId(log: seq<HistoryRecord>, historyId: int, h: HistoryRecord)
    requires Get(log, historyId) == Some(h) && IsNullOrWhiteSpace(h.downloadId)
    ensures ManualFailureSet(log, historyId) == Success([h])
    ensures var e := DownloadFailedEventFor([h], ManualMessage, None);
            e.episodeIds == [h.episodeId] && e.trackedDownload == None && e.message == ManualMessage
  {
    var e := DownloadFailedEventFor([h], ManualMessage, None);
    assert e.episodeIds == [e.episodeIds[0]];
  }

  /** A history record with a download id publishes every grabbed record of that download, and
      throws when there are none left. */
  lemma MarkByIdUsesGrabbedRecords(log: seq<HistoryRecord>, historyId: int, h: HistoryRecord)
    requires Get(log, historyId) == Some(h) && !IsNullOrWhiteSpace(h.downloadId)
    ensures var grabbed := Find(log, h.downloadId.value, Grabbed);
            ManualFailureSet(log, historyId) == (if grabbed == [] then Failure(NoGrabbedHistory) else Success(grabbed))
    ensures h.eventType == Grabbed ==> ManualFailureSet(log, historyId).Success? &&
                                       h in ManualFailureSet(log, historyId).value
  {
  }
}
