/** `useSupabaseSync` (src/hooks/useSupabaseSync.ts): the ledger of one day
    kept in the browser's storage under "opd:records:<date>" and mirrored,
    row by row, to the remote `patient_records` table. Each row carries a
    `synced` flag. The remote side is not modelled as a server: what it
    answers is an input of each operation (the connection probe, the
    day's query, the upsert), and each request sent to it is an output. */
module SyncStore {
  import opened Wrappers
  import opened Strings
  import opened Money
  import opened Records

  const LoadFailed := "Failed to load records"
  const CloudLoadFailed := "Failed to sync with cloud database"
  const SyncFailed := "Failed to sync to cloud database"

  /** The storage key of a day's rows. */
  function SyncKey(date: string): (k: string)
    ensures |k| == 12 + |date| && k[..12] == "opd:records:" && k[12..] == date
  {
    "opd:records:" + date
  }

  /** A row of the remote `patient_records` table (the fields this hook
      reads and writes); fees are amounts, not texts. */
  datatype RemoteRecord = RemoteRecord(
    id: string,
    recordDate: string,
    patientName: string,
    visitType: string,
    isFree: bool,
    consultationFee: int,
    includeProcedure: bool,
    procedureFee: int,
    includeTests: bool,
    testFee: int,
    includeAdditional: bool,
    additionalFee: int,
    notes: string,
    totalAmount: int)

  /** What the day's query answered: an error, or the day's records in
      creation order. */
  datatype Fetch = FetchFailed | Fetched(records: seq<RemoteRecord>)

  /** A delete sent to the remote table. */
  datatype Request = DeleteById(id: string) | DeleteByDate(date: string)

  /** The record `syncToSupabase` upserts for a row: fees parsed, the
      switched-off fees sent as 0, and the row total alongside. */
  function ToRemote(date: string, r: Row): (rec: RemoteRecord)
    ensures rec.totalAmount == ComputeRowTotal(r)
    ensures rec.totalAmount == rec.consultationFee + rec.procedureFee + rec.testFee + rec.additionalFee
    ensures (r.free ==> rec.consultationFee == 0) && (!r.includeTwoE ==> rec.procedureFee == 0)
    ensures (!r.includeLab ==> rec.testFee == 0) && (!r.includeExtra ==> rec.additionalFee == 0)
    ensures rec.id == r.id && rec.recordDate == date && rec.patientName == r.name
  {
    RemoteRecord(
      r.id, date, r.name, r.review, r.free,
      if r.free then 0 else ParseNum(r.amount),
      r.includeTwoE, if r.includeTwoE then ParseNum(r.twoE) else 0,
      r.includeLab, if r.includeLab then ParseNum(r.lab) else 0,
      r.includeExtra, if r.includeExtra then ParseNum(r.extra) else 0,
      r.obs, ComputeRowTotal(r))
  }

  /** A loaded remote record as a ledger row: fees written back with
      `String`, marked synced. */
  function FromRemote(rec: RemoteRecord): SyncRow
  {
    SyncRow(
      Row(rec.id, rec.patientName, rec.visitType, rec.isFree,
          IntToString(rec.consultationFee), rec.includeProcedure, IntToString(rec.procedureFee),
          rec.includeTests, IntToString(rec.testFee), rec.notes,
          rec.includeAdditional, IntToString(rec.additionalFee)),
      true)
  }

  function FromRemoteAll(records: seq<RemoteRecord>): (r: seq<SyncRow>)
    ensures |r| == |records| && forall i :: 0 <= i < |records| ==> r[i] == FromRemote(records[i])
  {
    seq(|records|, i requires 0 <= i < |records| => FromRemote(records[i]))
  }

  /** Rows loaded from storage: `synced` is set when the remote table is
      reachable and kept otherwise; nothing else changes. */
  function MarkLoaded(es: seq<SyncRow>, connected: bool): (r: seq<SyncRow>)
    ensures |r| == |es| && Plain(r) == Plain(es)
    ensures forall i :: 0 <= i < |es| ==> r[i].synced == (connected || es[i].synced)
  {
    seq(|es|, i requires 0 <= i < |es| => SyncRow(es[i].row, connected || es[i].synced))
  }

  /** A remote record as this hook writes it: dated, switched-off fees 0,
      and the total the sum of the fees. */
  predicate Consistent(date: string, rec: RemoteRecord)
  {
    rec.recordDate == date
    && (rec.isFree ==> rec.consultationFee == 0) && (!rec.includeProcedure ==> rec.procedureFee == 0)
    && (!rec.includeTests ==> rec.testFee == 0) && (!rec.includeAdditional ==> rec.additionalFee == 0)
    && rec.totalAmount == rec.consultationFee + rec.procedureFee + rec.testFee + rec.additionalFee
  }

  /** The row a loaded record becomes totals what the record says. */
  lemma LoadedRowTotal(date: string, rec: RemoteRecord)
    requires Consistent(date, rec)
    ensures ComputeRowTotal(FromRemote(rec).row) == rec.totalAmount
  {
    ParseNumOfString(rec.consultationFee);
    ParseNumOfString(rec.procedureFee);
    ParseNumOfString(rec.testFee);
    ParseNumOfString(rec.additionalFee);
  }

  /** Uploading a row and loading it back keeps its texts, flags and total. */
  lemma RemoteRoundTrip(date: string, r: Row)
    ensures var back := FromRemote(ToRemote(date, r)).row;
      back.id == r.id && back.name == r.name && back.review == r.review && back.obs == r.obs
      && back.free == r.free && back.includeTwoE == r.includeTwoE
      && back.includeLab == r.includeLab && back.includeExtra == r.includeExtra
      && ComputeRowTotal(back) == ComputeRowTotal(r)
  {
    LoadedRowTotal(date, ToRemote(date, r));
  }

  /** Loading a record this hook wrote and uploading it again sends the
      same record. */
  lemma RecordRoundTrip(date: string, rec: RemoteRecord)
    requires Consistent(date, rec)
    ensures ToRemote(date, FromRemote(rec).row) == rec
  {
    LoadedRowTotal(date, rec);
    ParseNumOfString(rec.consultationFee);
    ParseNumOfString(rec.procedureFee);
    ParseNumOfString(rec.testFee);
    ParseNumOfString(rec.additionalFee);
  }

  /** The hook's state for one day. `configured` says whether a remote
      client exists (both connection settings present). */
  class SyncLedger {
    const configured: bool
    const date: string
    var rows: seq<SyncRow>
    var loading: bool
    var syncing: bool
    var error: Option<string>
    var storage: map<string, Stored<SyncRow>>

    /** The storage holds the rows the ledger shows, up to their `synced`
        flags (a confirmed upsert is not written back). */
    ghost predicate Mirrored()
      reads this`rows, this`storage
    {
      SyncKey(date) in storage && storage[SyncKey(date)].Json?
      && Plain(storage[SyncKey(date)].items) == Plain(rows)
    }

    /** The hook's first render. */
    constructor (configured: bool, date: string, storage: map<string, Stored<SyncRow>>)
      ensures this.configured == configured && this.date == date && this.storage == storage
      ensures rows == [] && loading && !syncing && error == None
    {
      this.configured := configured;
      this.date := date;
      this.storage := storage;
      rows := [];
      loading := true;
      syncing := false;
      error := None;
    }

    /** `loadTodayRecords`. Text in storage that is not JSON takes the
        catch path (one fresh row, an error, nothing saved). Otherwise a
        reachable remote table with records for the day wins and is saved
        locally; a failed query sets an error and falls through; then
        an empty or missing local list becomes one fresh row (saved), and
        a non-empty one is shown with `synced` set when connected. */
    method LoadTodayRecords(probeOk: bool, fetch: Fetch, freshId: string)
      modifies this
      ensures !loading && syncing == old(syncing) && rows != []
      ensures var key := SyncKey(date);
        var connected := configured && probeOk;
        if key in old(storage) && old(storage)[key].Malformed? then
          error == Some(LoadFailed) && rows == [SyncRow(EmptyRow(freshId), true)]
          && storage == old(storage)
        else if connected && fetch.Fetched? && fetch.records != [] then
          error == None && rows == FromRemoteAll(fetch.records)
          && storage == old(storage)[key := Json(rows)]
        else
          var local := if key in old(storage) then old(storage)[key].items else [];
          error == (if connected && fetch.FetchFailed? then Some(CloudLoadFailed) else None)
          && if local == [] then
               rows == [SyncRow(EmptyRow(freshId), true)] && storage == old(storage)[key := Json(rows)]
             else
               rows == MarkLoaded(local, connected) && storage == old(storage)
      ensures !(SyncKey(date) in old(storage) && old(storage)[SyncKey(date)].Malformed?) ==> Mirrored()
    {
      loading := true;
      error := None;
      var connected := configured && probeOk;
      var key := SyncKey(date);
      var localRecords: seq<SyncRow> := [];
      if key in storage {
        match storage[key]
        case Malformed =>
          // `JSON.parse` throws: the catch path.
          error := Some(LoadFailed);
          rows := [SyncRow(EmptyRow(freshId), true)];
          loading := false;
          return;
        case Json(items) =>
          localRecords := items;
      }
      if connected {
        match fetch
        case Fetched(records) =>
          if |records| > 0 {
            var converted := FromRemoteAll(records);
            rows := converted;
            storage := storage[key := Json(converted)];
            loading := false;
            return;
          }
        case FetchFailed =>
          error := Some(CloudLoadFailed);
      }
      if |localRecords| == 0 {
        rows := [SyncRow(EmptyRow(freshId), true)];
        storage := storage[key := Json(rows)];
      } else {
        rows := MarkLoaded(localRecords, connected);
      }
      loading := false;
    }

    /** `addRow`: a fresh, unsynced row at the end, saved. */
    method AddRow(freshId: string)
      modifies this`rows, this`storage
      ensures rows == old(rows) + [SyncRow(EmptyRow(freshId), false)]
      ensures storage == old(storage)[SyncKey(date) := Json(rows)]
      ensures Mirrored()
    {
      rows := rows + [SyncRow(EmptyRow(freshId), false)];
      storage := storage[SyncKey(date) := Json(rows)];
    }

    /** `syncToSupabase`: nothing happens without a client or for a row
        whose name is blank; otherwise the row's record is upserted and,
        when the upsert succeeds, the rows with its id are marked synced
        (in the shown rows only); when it fails the error is set. */
    method SyncToSupabase(record: Row, upsertOk: bool) returns (sent: Option<RemoteRecord>)
      modifies this`rows, this`syncing, this`error
      ensures sent == if configured && Trim(record.name) != "" then Some(ToRemote(date, record)) else None
      ensures sent.None? ==> rows == old(rows) && error == old(error) && syncing == old(syncing)
      ensures sent.Some? ==> !syncing
      ensures sent.Some? && upsertOk ==> rows == MarkSynced(old(rows), record.id) && error == old(error)
      ensures sent.Some? && !upsertOk ==> rows == old(rows) && error == Some(SyncFailed)
    {
      if !configured || Trim(record.name) == "" {
        // A client is missing, or the row has no name yet: nothing is sent.
        sent := None;
      } else {
        sent := Some(ToRemote(date, record));
        Upsert(record.id, upsertOk);
      }
    }

    /** The upsert itself, from `syncing` on to `syncing` off: a success
        marks the rows with that id synced, a failure sets the error. */
    method Upsert(id: string, upsertOk: bool)
      modifies this`rows, this`syncing, this`error
      ensures !syncing
      ensures upsertOk ==> rows == MarkSynced(old(rows), id) && error == old(error)
      ensures !upsertOk ==> rows == old(rows) && error == Some(SyncFailed)
    {
      syncing := true;
      if upsertOk {
        rows := MarkSynced(rows, id);
      } else {
        error := Some(SyncFailed);
      }
      syncing := false;
    }

    /** The record `updateRow` sends for the row with that id: none
        without a client, without such a row, or for a row whose name is
        blank. */
    function Upload(es: seq<SyncRow>, id: string): Option<RemoteRecord>
    {
      var found := FindEntry(es, id);
      if configured && found.Some? && Trim(found.value.row.name) != "" then Some(ToRemote(date, found.value.row))
      else None
    }

    /** A record is sent exactly when there is a client and the first row
        with that id has a name that is not empty after a trim; it carries
        that id and that name. */
    lemma UploadCases(es: seq<SyncRow>, id: string)
      ensures var sent := Upload(es, id);
        (sent.Some? ==> configured && sent.value.id == id && Trim(sent.value.patientName) != "")
        && (sent.Some? <==> configured && (exists i :: 0 <= i < |es| && es[i].row.id == id)
                            && Trim(FindEntry(es, id).value.row.name) != "")
    {
    }

    /** `updateRow`: the patch applied to the rows with that id, which
        become unsynced; saved; then, with a client, the first row with
        that id is synced. */
    method UpdateRow(id: string, patch: Patch, upsertOk: bool) returns (sent: Option<RemoteRecord>)
      modifies this`rows, this`storage, this`syncing, this`error
      ensures storage == old(storage)[SyncKey(date) := Json(UpdateEntries(old(rows), id, patch))]
      ensures sent == Upload(UpdateEntries(old(rows), id, patch), id)
      ensures sent.Some? && upsertOk ==> rows == MarkSynced(UpdateEntries(old(rows), id, patch), id)
      ensures !(sent.Some? && upsertOk) ==> rows == UpdateEntries(old(rows), id, patch)
      ensures sent.Some? && !upsertOk ==> error == Some(SyncFailed)
      ensures !(sent.Some? && !upsertOk) ==> error == old(error)
      ensures sent.Some? ==> !syncing
      ensures sent.None? ==> syncing == old(syncing)
      ensures Mirrored()
    {
      rows := UpdateEntries(rows, id, patch);
      storage := storage[SyncKey(date) := Json(rows)];
      sent := SyncShown(id, upsertOk);
    }

    /** The sync step of `updateRow`: the first shown row with that id is
        handed to `syncToSupabase` when there is a client. */
    method SyncShown(id: string, upsertOk: bool) returns (sent: Option<RemoteRecord>)
      modifies this`rows, this`syncing, this`error
      ensures sent == Upload(old(rows), id)
      ensures sent.Some? && upsertOk ==> rows == MarkSynced(old(rows), id)
      ensures !(sent.Some? && upsertOk) ==> rows == old(rows)
      ensures sent.Some? && !upsertOk ==> error == Some(SyncFailed)
      ensures !(sent.Some? && !upsertOk) ==> error == old(error)
      ensures sent.Some? ==> !syncing
      ensures sent.None? ==> syncing == old(syncing)
    {
      var found := FindEntry(rows, id);
      if configured && found.Some? {
        sent := SyncToSupabase(found.value.row, upsertOk);
      } else {
        sent := None;
      }
    }

    /** `removeRow`: with a client, a delete of that id is sent (its
        outcome ignored); the rows with that id are dropped and saved. */
    method RemoveRow(id: string) returns (request: Option<Request>)
      modifies this`rows, this`storage
      ensures request == if configured then Some(DeleteById(id)) else None
      ensures rows == RemoveEntries(old(rows), id)
      ensures storage == old(storage)[SyncKey(date) := Json(rows)]
      ensures Mirrored()
    {
      request := if configured then Some(DeleteById(id)) else None;
      rows := RemoveEntries(rows, id);
      storage := storage[SyncKey(date) := Json(rows)];
    }

    /** `clearDay`: with a client, a delete of the whole day is sent; the
        key is removed and rewritten with one fresh, unsynced row. */
    method ClearDay(freshId: string) returns (request: Option<Request>)
      modifies this`rows, this`storage
      ensures request == if configured then Some(DeleteByDate(date)) else None
      ensures rows == [SyncRow(EmptyRow(freshId), false)]
      ensures storage == old(storage)[SyncKey(date) := Json(rows)]
      ensures Mirrored()
    {
      request := if configured then Some(DeleteByDate(date)) else None;
      storage := map k | k in storage && k != SyncKey(date) :: storage[k];
      rows := [SyncRow(EmptyRow(freshId), false)];
      storage := storage[SyncKey(date) := Json(rows)];
    }
  }
}
