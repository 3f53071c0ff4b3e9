# Failed-download detection, modelled in Dafny

This project models the failed-download service of Sonarr (`FailedDownloadService`). The
service watches downloads that the application started. When a download client reports a
download as encrypted or failed, and the history log shows that the application grabbed it,
the service marks the download `FailedPending` (`Check`). A later pass moves it to `Failed` and
publishes exactly one `DownloadFailedEvent` (`ProcessFailed`). An operator can also force a
failure event for a history record or for a download id (the two `MarkAsFailed` overloads).

Modules, one per concept of the source:

- `Wrappers`: `Option` for C# nulls and missing dictionary entries, and `Result`/`Outcome` for thrown exceptions.
- `Strings`: `string.IsNullOrWhiteSpace` over .NET's white-space characters.
- `History`: history records, and the history service as a store of records. `Find` is the
  in-order filter by download id and event kind. `Get` is the lookup by id.
- `TrackedDownloads`: the client's `DownloadItem` snapshot, the lifecycle state, and the
  mutable `TrackedDownload` class with its list of warnings.
- `Messaging`: `DownloadFailedEvent`, and the event aggregator seen as the sequence of events published on it.
- `FailedDownload`: the service as a class whose methods update the tracked download and the
  event aggregator in place. Each method's `ensures` ties the new state to a pure description
  of its effect (`CheckEffect`, `ProcessEffect`, `ManualFailureSet`, `DownloadFailedEventFor`).
  The lemmas state the service's guarantees about those descriptions.
- `Polling`: any sequence of `Check`/`ProcessFailed` calls on one download, with the client's
  report and the history log free to change between calls. The lemmas here prove that at most
  one event is published and that the state only moves forward.
- `Scenarios`: worked examples (a season pack, an ungrabbed download, the manual paths),
  proved from the method contracts alone.

The C# `MarkAsFailed(int)` and `MarkAsFailed(string)` overloads become
`MarkAsFailedByHistoryId` and `MarkAsFailedByDownloadId`. Two situations make the C# method
throw before it publishes anything: `Get` with an unknown id, and `First()` on an empty grabbed
list. `MarkAsFailedByHistoryId` returns these as `Fail(HistoryNotFound)` and
`Fail(NoGrabbedHistory)`, and publishes nothing in either case.

Two details of the code matter here:
- The client's failure message is used when it is not null and not white space. Being
  non-empty is not enough.
- `MarkAsFailed(int)` on a record whose download has no grabbed records left throws at `First()`.
  It does not do nothing quietly.

## Model

| member | source | states |
|---|---|---|
| `Strings.AllWhiteSpace` | src/NzbDrone.Core/Download/FailedDownloadService.cs:35 | the recursive blank test holds exactly when every character is white space |
| `History.Find` | src/NzbDrone.Core/Download/FailedDownloadService.cs:67-69 | the lookup returns exactly the log's records with that download id and event kind, never more records than the log holds |
| `History.FindAppend` | src/NzbDrone.Core/Download/FailedDownloadService.cs:88-90 | the lookup keeps log order: matches of a concatenation are the matches of each part in turn |
| `History.Get` | src/NzbDrone.Core/Download/FailedDownloadService.cs:32 | a found record is in the log and has the id; nothing is found exactly when no record has the id |
| `TrackedDownloads.TrackedDownload.Warn` | src/NzbDrone.Core/Download/FailedDownloadService.cs:73 | a warning is appended and the state and client snapshot are untouched |
| `Messaging.EventAggregator.PublishEvent` | src/NzbDrone.Core/Download/FailedDownloadService.cs:130 | publishing appends the event to the published sequence |
| `FailedDownload.FailureMessage` | src/NzbDrone.Core/Download/FailedDownloadService.cs:97-106 | the failure message is never blank and is one of the two fixed texts or the client's failure message verbatim |
| `FailedDownload.FailureMessagePrecedence` | src/NzbDrone.Core/Download/FailedDownloadService.cs:97-106 | encryption wins whatever the status or message; then a failed status with a message that is not blank gives that message; otherwise "Failed download detected" |
| `FailedDownload.EpisodeIds` | src/NzbDrone.Core/Download/FailedDownloadService.cs:119 | one episode id per history record, same length and order |
| `FailedDownload.DownloadFailedEventFor` | src/NzbDrone.Core/Download/FailedDownloadService.cs:112-128 | the event needs at least one record; its episode ids come from all records in order; series, quality, title, download id, language and data come from the first record; download client is the first record's "downloadClient" entry or null; message and tracked download are the caller's |
| `FailedDownload.ManualFailureSet` | src/NzbDrone.Core/Download/FailedDownloadService.cs:30-44 | a manual mark by history id publishes a non-empty record list, and fails with "not found" exactly when no record has the id |
| `FailedDownload.MarkByIdBlankDownloadId` | src/NzbDrone.Core/Download/FailedDownloadService.cs:34-38 | a record with a blank download id is published alone: one episode, no tracked download, the manual message |
| `FailedDownload.MarkByIdUsesGrabbedRecords` | src/NzbDrone.Core/Download/FailedDownloadService.cs:39-43 | a record with a download id publishes all grabbed records of that download and throws when there are none; a grab record always finds at least itself |
| `FailedDownload.FailedDownloadService.constructor` | src/NzbDrone.Core/Download/FailedDownloadService.cs:23-28 | the service keeps the history service and event aggregator it is given |
| `FailedDownload.FailedDownloadService.MarkAsFailedByHistoryId` | src/NzbDrone.Core/Download/FailedDownloadService.cs:30-44 | publishes exactly one manual event built from the record set, or reports the exception and publishes nothing |
| `FailedDownload.FailedDownloadService.MarkAsFailedByDownloadId` | src/NzbDrone.Core/Download/FailedDownloadService.cs:46-54 | publishes exactly one manual event with no tracked download when the download has grabbed records, and none otherwise |
| `FailedDownload.FailedDownloadService.Check` | src/NzbDrone.Core/Download/FailedDownloadService.cs:56-79 | the new state and warnings are those of the check's effect on the old state; the client snapshot is unchanged; nothing is published |
| `FailedDownload.FailedDownloadService.ProcessFailed` | src/NzbDrone.Core/Download/FailedDownloadService.cs:81-110 | the new state is that of the finalisation effect; when it publishes, the one event is built from the grabbed records, the chosen failure message and this download; warnings are unchanged |
| `FailedDownload.FailedDownloadService.PublishDownloadFailedEvent` | src/NzbDrone.Core/Download/FailedDownloadService.cs:112-131 | requires a record (`First()`), and appends exactly the event built from the records |
| `FailedDownload.CheckOnlyWhileDownloading` | src/NzbDrone.Core/Download/FailedDownloadService.cs:58-62 | a check on a download that is not Downloading changes no state, adds no warning, publishes nothing |
| `FailedDownload.CheckMarksPendingExactly` | src/NzbDrone.Core/Download/FailedDownloadService.cs:64-78 | a check never publishes and only ever moves Downloading to FailedPending, which it does exactly when the client reports encryption or failure and grabbed records exist |
| `FailedDownload.CheckWarnsWhenNotGrabbed` | src/NzbDrone.Core/Download/FailedDownloadService.cs:71-75 | a triggered check without grabbed records adds exactly one warning and keeps the state; otherwise no warning |
| `FailedDownload.ProcessOnlyFromPending` | src/NzbDrone.Core/Download/FailedDownloadService.cs:83-95 | finalisation publishes exactly when the download is FailedPending with grabbed records, then moves it to Failed; otherwise the state is kept, so Downloading never jumps to Failed |
| `FailedDownload.ProcessFailedIdempotent` | src/NzbDrone.Core/Download/FailedDownloadService.cs:83-109 | after a finalisation that published, a second one publishes nothing and the download stays Failed |
| `Polling.RunInertOutsideDetection` | src/NzbDrone.Core/Download/FailedDownloadService.cs:56-110 | once a download is neither Downloading nor FailedPending, any polling leaves it as is and publishes nothing |
| `Polling.RunPublishesAtMostOnce` | src/NzbDrone.Core/Download/FailedDownloadService.cs:56-110 | any sequence of checks and finalisations publishes at most one event per download, and a download that published ends Failed |
| `Polling.RunMovesForward` | src/NzbDrone.Core/Download/FailedDownloadService.cs:56-110 | polling only moves Downloading to FailedPending to Failed, never backwards |
| `Polling.RunWithoutGrabIsInert` | src/NzbDrone.Core/Download/FailedDownloadService.cs:64-95 | a download whose grabbed lookup is always empty is never transitioned and never published |
| `Polling.RunFailsOnlyAfterCheck` | src/NzbDrone.Core/Download/FailedDownloadService.cs:56-110 | a download that starts Downloading publishes only if a check that found grabbed records comes before a finalisation |
| `Polling.PendingPublishesOnProcess` | src/NzbDrone.Core/Download/FailedDownloadService.cs:81-110 | a FailedPending download publishes only through a finalisation call |

## Left out

- Storage and querying of the history log: the history service is a sequence of records. `Find`
  is its in-order filter, and the order the real repository returns is not modelled.
  `History.cs` is not part of this model. The "downloadClient" value of the download-client data key is taken from the application.
- Event delivery and subscriber dispatch: the event aggregator only records what was published.
- The polling loop that calls `Check` and `ProcessFailed`, and any concurrent interleaving with
  the manual paths. The lack of deduplication between a manual and an automatic event for the
  same download is a concurrency concern and is not modelled. `Polling` covers sequential calls on one download only.
- `TrackedDownload.cs` is not part of this model. `Warn` is modelled as appending one message to
  the download's warnings. Its formatting of arguments and its status flag are not modelled.
- The lifecycle states that this service neither reads nor assigns are merged into one `Other` state.
- Internals of `Quality` and `Language`: they are copied through unread. The `Data` dictionary is
  copied through too, and is read at one entry only: the download-client name.
- FailedDownload.DownloadFailedEventFor: the download-client entry is found by exact,
  case-sensitive key equality. The key comparer of `History.Data` is not modelled, because
  `History.cs` is not part of this model.
- A null download id on `DownloadItem` or passed to `MarkAsFailed(string)`: download ids there are non-null strings.
- Collaborator failures (history log or event bus unreachable): these are exceptions outside the service.
- `TitleTheYearFixture.cs`: a test fixture for file naming, unrelated to this service.
