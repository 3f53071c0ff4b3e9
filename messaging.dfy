/** The failure notification and the event bus it is published on. */
module Messaging {
  import opened Wrappers
  import opened History
  import opened TrackedDownloads

  /** The event the failed-download service publishes. */
  datatype DownloadFailedEvent = DownloadFailedEvent(
    seriesId: int,
    episodeIds: seq<int>,
    quality: Quality,
    sourceTitle: string,
    downloadClient: Option<string>,
    downloadId: Option<string>,
    message: string,
    data: map<string, string>,
    trackedDownload: Option<TrackedDownload>,
    language: Language)

  /** The event aggregator, seen only as the sequence of events published on it. */
  class EventAggregator {
    var published: seq<DownloadFailedEvent>

    constructor ()
      ensures published == []
    {
      published := [];
    }

    method PublishEvent(e: DownloadFailedEvent)
      modifies this
      ensures published == old(published) + [e]
    {
      published := published + [e];
    }
  }
}
