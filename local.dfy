/** `useLocalStorage` (src/hooks/useLocalStorage.ts): the ledger of one day
    kept only in the browser's storage, under the key "clinic:records:<date>".
    Every change writes the whole row list back under that key. */
module LocalStore {
  import opened Records

  /** The storage key of a day's rows. */
  function LocalKey(date: string): (k: string)
    ensures |k| == 15 + |date| && k[..15] == "clinic:records:" && k[15..] == date
  {
    "clinic:records:" + date
  }

  /** Different days never share a key. */
  lemma LocalKeyInjective(d1: string, d2: string)
    ensures LocalKey(d1) == LocalKey(d2) <==> d1 == d2
  {
    assert LocalKey(d1)[15..] == d1 && LocalKey(d2)[15..] == d2;
  }

  /** The hook's state for one day. `storage` is the browser's storage as
      seen by this hook; the row list reaches it as a JSON array. */
  class LocalLedger {
    const date: string
    var rows: seq<Row>
    var loading: bool
    var storage: map<string, Stored<Row>>

    /** The storage holds exactly the rows the ledger shows. */
    ghost predicate Saved()
      reads this
    {
      LocalKey(date) in storage && storage[LocalKey(date)] == Json(rows)
    }

    /** The hook's first render: no rows yet, loading. */
    constructor (date: string, storage: map<string, Stored<Row>>)
      ensures this.date == date && this.storage == storage
      ensures rows == [] && loading
    {
      this.date := date;
      this.storage := storage;
      rows := [];
      loading := true;
    }

    /** `saveToStorage`. */
    method Save(data: seq<Row>)
      modifies this`storage
      ensures storage == old(storage)[LocalKey(date) := Json(data)]
    {
      storage := storage[LocalKey(date) := Json(data)];
    }

    /** `loadFromStorage`: stored rows are shown as they are (an empty
        array stays empty); with nothing stored one fresh row is shown and
        saved; text that is not JSON shows one fresh row and saves nothing.
        Loading is over afterwards in every case. */
    method LoadFromStorage(freshId: string)
      modifies this
      ensures !loading
      ensures var key := LocalKey(date);
        if key !in old(storage) then
          rows == [EmptyRow(freshId)] && storage == old(storage)[key := Json(rows)]
        else if old(storage)[key].Json? then
          rows == old(storage)[key].items && storage == old(storage)
        else
          rows == [EmptyRow(freshId)] && storage == old(storage)
      ensures old(LocalKey(date) !in storage || storage[LocalKey(date)].Json?) ==> Saved()
    {
      loading := true;
      var key := LocalKey(date);
      if key in storage {
        match storage[key]
        case Json(records) =>
          rows := records;
        case Malformed =>
          // `JSON.parse` throws: the catch path shows one fresh row, unsaved.
          rows := [EmptyRow(freshId)];
      } else {
        rows := [EmptyRow(freshId)];
        Save([EmptyRow(freshId)]);
      }
      loading := false;
    }

    /** `addRow`: a fresh row at the end, saved. */
    method AddRow(freshId: string)
      modifies this`rows, this`storage
      ensures rows == old(rows) + [EmptyRow(freshId)]
      ensures storage == old(storage)[LocalKey(date) := Json(rows)]
      ensures Saved()
    {
      rows := rows + [EmptyRow(freshId)];
      Save(rows);
    }

    /** `updateRow`: the patch applied to the rows with that id, saved. */
    method UpdateRow(id: string, patch: Patch)
      modifies this`rows, this`storage
      ensures rows == UpdateRows(old(rows), id, patch)
      ensures storage == old(storage)[LocalKey(date) := Json(rows)]
      ensures Saved()
    {
      rows := UpdateRows(rows, id, patch);
      Save(rows);
    }

    /** `removeRow`: the rows with that id dropped, saved. */
    method RemoveRow(id: string)
      modifies this`rows, this`storage
      ensures rows == RemoveRows(old(rows), id)
      ensures storage == old(storage)[LocalKey(date) := Json(rows)]
      ensures Saved()
    {
      rows := RemoveRows(rows, id);
      Save(rows);
    }

    /** `clearDay`: a single fresh row, saved. */
    method ClearDay(freshId: string)
      modifies this`rows, this`storage
      ensures rows == [EmptyRow(freshId)]
      ensures storage == old(storage)[LocalKey(date) := Json(rows)]
      ensures Saved()
    {
      rows := [EmptyRow(freshId)];
      Save(rows);
    }
  }

  /** What is saved comes back: a ledger opened for the same day on the
      storage a saved ledger left behind shows the same rows. */
  method Reopen(l: LocalLedger, freshId: string) returns (n: LocalLedger)
    requires l.Saved()
    ensures n.date == l.date && n.rows == l.rows && n.storage == l.storage && !n.loading
  {
    n := new LocalLedger(l.date, l.storage);
    n.LoadFromStorage(freshId);
  }

  /** Another day's rows are untouched by every change to this day. */
  lemma OtherDaysUntouched(storage: map<string, Stored<Row>>, date: string, other: string, rows: seq<Row>)
    requires other != date && LocalKey(other) in storage
    ensures storage[LocalKey(date) := Json(rows)][LocalKey(other)] == storage[LocalKey(other)]
  {
    LocalKeyInjective(date, other);
  }
}
