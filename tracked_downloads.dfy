/** A download in flight, as the download client reports it and as the application tracks it. */
module TrackedDownloads {
  import opened Wrappers

  /** The status a download client reports for an item. */
  datatype DownloadItemStatus = Queued | Paused | Downloading | Completed | Failed | Warning

  /** The client's snapshot of one download; `message` may be null. */
  datatype DownloadItem = DownloadItem(
    downloadId: string,
    isEncrypted: bool,
    status: DownloadItemStatus,
    message: Option<string>)

  /** The lifecycle of a tracked download. `Other` stands for every state the failure
      detector neither reads nor assigns (the import states and the like). */
  datatype TrackedDownloadState = Downloading | FailedPending | Failed | Other

  /** The application's mutable record of one download. */
  class TrackedDownload {
    var state: TrackedDownloadState
    var downloadItem: DownloadItem
    var statusMessages: seq<string>

    constructor (item: DownloadItem)
      ensures state == TrackedDownloadState.Downloading
      ensures downloadItem == item && statusMessages == []
    {
      state := TrackedDownloadState.Downloading;
      downloadItem := item;
      statusMessages := [];
    }

    /** Attaches a diagnostic warning; nothing else about the download changes. */
    method Warn(message: string)
      modifies this
      ensures statusMessages == old(statusMessages) + [message]
      ensures state == old(state) && downloadItem == old(downloadItem)
    {
      statusMessages := statusMessages + [message];
    }
  }
}
