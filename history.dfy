/** The history log, as far as the failed-download service reads it. */
module History {
  import opened Wrappers

  /** The kind of a history record; the service only ever asks for `Grabbed`. */
  datatype HistoryEventType = Grabbed | OtherEvent

  /** The release quality of a grab, copied through to the failure event unread. */
  datatype Quality = Quality(name: string)

  /** The language of a grab, copied through to the failure event unread. */
  datatype Language = Language(name: string)

  /** One row of the history log; `downloadId` is null for a record with no download. */
  datatype HistoryRecord = HistoryRecord(
    id: int,
    downloadId: Option<string>,
    eventType: HistoryEventType,
    seriesId: int,
    episodeId: int,
    quality: Quality,
    sourceTitle: string,
    language: Language,
    data: map<string, string>)

  /** The key under which a grab record names its download client. */
  const DownloadClientKey := "downloadClient"

  /** The history service: a store of records that the rest of the application appends to
      and prunes between calls into the failed-download service. */
  class HistoryService {
    var records: seq<HistoryRecord>

    constructor (records: seq<HistoryRecord>)
      ensures this.records == records
    {
      this.records := records;
    }
  }

  predicate Matches(h: HistoryRecord, downloadId: string, eventType: HistoryEventType) {
    h.downloadId == Some(downloadId) && h.eventType == eventType
  }

  /** `Find(downloadId, eventType)`: the records of that download and kind, in log order. */
  function Find(log: seq<HistoryRecord>, downloadId: string, eventType: HistoryEventType): (found: seq<HistoryRecord>)
    ensures |found| <= |log|
    ensures forall h :: h in found <==> h in log && Matches(h, downloadId, eventType)
  {
    if log == [] then []
    else (if Matches(log[0], downloadId, eventType) then [log[0]] else []) + Find(log[1..], downloadId, eventType)
  }

  /** Find keeps log order: the matches of a concatenation are the matches of each part, in turn. */
  lemma {:induction false} FindAppend(a: seq<HistoryRecord>, b: seq<HistoryRecord>, downloadId: string, eventType: HistoryEventType)
    ensures Find(a + b, downloadId, eventType) == Find(a, downloadId, eventType) + Find(b, downloadId, eventType)
  {
    if a == [] {
      assert a + b == b;
    } else {
      assert (a + b)[0] == a[0];
      assert (a + b)[1..] == a[1..] + b;
      FindAppend(a[1..], b, downloadId, eventType);
    }
  }

  /** `Get(id)`: the record with that id, or None where the repository would throw. */
  function Get(log: seq<HistoryRecord>, id: int): (r: Option<HistoryRecord>)
    ensures r.Some? ==> r.value in log && r.value.id == id
    ensures r.None? <==> forall h :: h in log ==> h.id != id
  {
    if log == [] then None
    else if log[0].id == id then Some(log[0])
    else Get(log[1..], id)
  }
}
