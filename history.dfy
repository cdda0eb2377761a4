/**
 * The history of a workflow run: an append-only list of records, one per
 * activity proceeded, each with the activity's caption, the status and
 * result after it, and a timestamp.  Timestamps are kept as the text the
 * history file prints for them; the clock reading "now" is a parameter.
 */
module Histories {
  import opened Wrappers
  import Workflows

  datatype HistoryRecord = HistoryRecord(
    timestamp: string,
    activityCaption: string,
    status: Workflows.Status,
    result: Option<string>)

  /** HistoryRecord(activity_caption, status, result, timestamp): a given
      timestamp is kept, otherwise the record is stamped with `now`. */
  function NewRecord(caption: string, status: Workflows.Status, result: Option<string>,
                     timestamp: Option<string>, now: string): (r: HistoryRecord)
    ensures r.activityCaption == caption && r.status == status && r.result == result
    ensures timestamp.Some? ==> r.timestamp == timestamp.value
    ensures timestamp.None? ==> r.timestamp == now
  {
    HistoryRecord(if timestamp.Some? then timestamp.value else now, caption, status, result)
  }

  class History {
    var records: seq<HistoryRecord>

    constructor()
      ensures records == []
    {
      records := [];
    }

    /** add_record: one record, stamped `now`, at the end; earlier records
        are left as they were. */
    method AddRecord(caption: string, status: Workflows.Status, result: Option<string>, now: string)
      modifies this
      ensures records == old(records) + [NewRecord(caption, status, result, None, now)]
      ensures |records| == |old(records)| + 1
      ensures records[..|old(records)|] == old(records)
      ensures records[|records| - 1] == HistoryRecord(now, caption, status, result)
    {
      records := records + [NewRecord(caption, status, result, None, now)];
    }
  }
}
