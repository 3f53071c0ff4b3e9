/** Worked examples of the service on concrete histories, proved from the method contracts alone. */
module Scenarios {
  import opened Wrappers
  import opened History
  import opened TrackedDownloads
  import opened Messaging
  import opened FailedDownload

  function GrabOf(id: int, downloadId: string, episodeId: int): HistoryRecord {
    HistoryRecord(id, Some(downloadId), Grabbed, 7, episodeId, Quality("HDTV-720p"), "Show.S01.720p", Language("English"),
                  map[DownloadClientKey := "Sabnzbd"])
  }

  /** A season pack of two episodes that the client reports encrypted is first marked
      FailedPending, then failed with one event for both episodes; polling again adds nothing. */
  method SeasonPack() {
    var r10, r11 := GrabOf(1, "abc", 10), GrabOf(2, "abc", 11);
    assert Find([r10, r11], "abc", Grabbed) == [r10, r11];
    var history := new HistoryService([r10, r11]);
    var events := new EventAggregator();
    var service := new FailedDownloadService(history, events);
    var download := new TrackedDownload(DownloadItem("abc", true, DownloadItemStatus.Downloading, None));

    service.Check(download);
    assert download.state == FailedPending && events.published == [];

    service.ProcessFailed(download);
    assert download.state == TrackedDownloadState.Failed && |events.published| == 1;
    var e := events.published[0];
    assert e.message == EncryptedMessage;
    assert e.episodeIds == [10, 11];
    assert e.trackedDownload == Some(download) && e.downloadClient == Some("Sabnzbd");

    service.Check(download);
    service.ProcessFailed(download);
    assert download.state == TrackedDownloadState.Failed && |events.published| == 1;
  }

  /** A failed download the application never grabbed only gets a warning. */
  method Ungrabbed() {
    var other := GrabOf(1, "abc", 10);
    assert Find([other], "xyz", Grabbed) == [];
    var history := new HistoryService([other]);
    var events := new EventAggregator();
    var service := new FailedDownloadService(history, events);
    var download := new TrackedDownload(DownloadItem("xyz", false, DownloadItemStatus.Failed, Some("CRC error")));

    service.Check(download);
    assert download.state == TrackedDownloadState.Downloading;
    assert download.statusMessages == [NotGrabbedWarning] && events.published == [];

    service.ProcessFailed(download);
    assert download.state == TrackedDownloadState.Downloading && events.published == [];
  }

  /** Marking a download id as failed by hand publishes one event without a tracked download,
      and an unknown id publishes nothing. */
  method ManualByDownloadId() {
    var r := GrabOf(3, "xyz", 12);
    assert Find([r], "xyz", Grabbed) == [r];
    assert Find([r], "nope", Grabbed) == [];
    var history := new HistoryService([r]);
    var events := new EventAggregator();
    var service := new FailedDownloadService(history, events);

    service.MarkAsFailedByDownloadId("nope");
    assert events.published == [];

    service.MarkAsFailedByDownloadId("xyz");
    assert |events.published| == 1;
    assert events.published[0].message == ManualMessage && events.published[0].trackedDownload == None;
    assert events.published[0].episodeIds == [12];
  }

  /** Marking a history record as failed by hand: a record without a download id is published
      alone; an unknown id throws and publishes nothing. */
  method ManualByHistoryId() {
    var loose := HistoryRecord(4, None, OtherEvent, 7, 13, Quality("SDTV"), "Show.S01E13", Language("English"), map[]);
    var history := new HistoryService([loose]);
    var events := new EventAggregator();
    var service := new FailedDownloadService(history, events);

    var outcome := service.MarkAsFailedByHistoryId(4);
    assert outcome == Pass && |events.published| == 1;
    assert events.published[0].episodeIds == [13] && events.published[0].downloadClient == None;

    outcome := service.MarkAsFailedByHistoryId(99);
    assert outcome == Fail(HistoryNotFound) && |events.published| == 1;
  }
}
