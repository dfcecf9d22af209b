module Wrappers {
  datatype Option<+T> = None | Some(value: T)
}

/** The ledger's line item (`RecordRow`), the partial updates applied to it,
    its total, and the row-list transforms both hooks use. */
module Records {
  import opened Wrappers
  import opened Strings
  import opened Money
  import opened Sequences

  /** One patient visit. `amount` is the consultation fee, `twoE` the
      procedure fee, `lab` the test fee and `extra` an additional fee; each
      fee except `amount` counts only when its `include` flag is set, and
      `amount` counts only when the visit is not `free`. */
  datatype Row = Row(
    id: string,
    name: string,
    review: string,
    free: bool,
    amount: string,
    includeTwoE: bool,
    twoE: string,
    includeLab: bool,
    lab: string,
    obs: string,
    includeExtra: bool,
    extra: string)

  /** A row of the remote-backed ledger with its `synced` flag. */
  datatype SyncRow = SyncRow(row: Row, synced: bool)

  /** A `Partial<RecordRow>`: the fields it sets. */
  datatype Patch = Patch(
    id: Option<string>,
    name: Option<string>,
    review: Option<string>,
    free: Option<bool>,
    amount: Option<string>,
    includeTwoE: Option<bool>,
    twoE: Option<string>,
    includeLab: Option<bool>,
    lab: Option<string>,
    obs: Option<string>,
    includeExtra: Option<bool>,
    extra: Option<string>)

  /** What a storage key holds: a JSON array of rows, or text `JSON.parse`
      rejects. */
  datatype Stored<T> = Json(items: seq<T>) | Malformed

  const NoChange := Patch(None, None, None, None, None, None, None, None, None, None, None, None)

  function Override<T>(o: Option<T>, current: T): T
  {
    if o.Some? then o.value else current
  }

  /** `{ ...row, ...patch }`. */
  function ApplyPatch(r: Row, p: Patch): Row
  {
    Row(Override(p.id, r.id), Override(p.name, r.name), Override(p.review, r.review),
        Override(p.free, r.free), Override(p.amount, r.amount),
        Override(p.includeTwoE, r.includeTwoE), Override(p.twoE, r.twoE),
        Override(p.includeLab, r.includeLab), Override(p.lab, r.lab),
        Override(p.obs, r.obs), Override(p.includeExtra, r.includeExtra),
        Override(p.extra, r.extra))
  }

  /** A patch that sets nothing leaves the row as it is. */
  lemma ApplyNoChange(r: Row)
    ensures ApplyPatch(r, NoChange) == r
  {
  }

  /** The row every "new row" path creates: empty texts, every flag off. */
  function EmptyRow(id: string): Row
  {
    Row(id, "", "", false, "", false, "", false, "", "", false, "")
  }

  /** `computeRowTotal`. */
  function ComputeRowTotal(r: Row): int
  {
    (if r.free then 0 else ParseNum(r.amount))
    + (if r.includeTwoE then ParseNum(r.twoE) else 0)
    + (if r.includeLab then ParseNum(r.lab) else 0)
    + (if r.includeExtra then ParseNum(r.extra) else 0)
  }

  /** A free visit with no fee switched on costs nothing, whatever its
      fee texts hold. */
  lemma FreeRowWithoutFeesIsZero(r: Row)
    requires r.free && !r.includeTwoE && !r.includeLab && !r.includeExtra
    ensures ComputeRowTotal(r) == 0
  {
  }

  /** A freshly created row totals 0. */
  lemma EmptyRowIsZero(id: string)
    ensures ComputeRowTotal(EmptyRow(id)) == 0
  {
  }

  /** The total is never negative when no fee text carries a minus sign. */
  lemma RowTotalNonNegative(r: Row)
    requires '-' !in r.amount && '-' !in r.twoE && '-' !in r.lab && '-' !in r.extra
    ensures ComputeRowTotal(r) >= 0
  {
    ParseNumNonNegative(r.amount);
    ParseNumNonNegative(r.twoE);
    ParseNumNonNegative(r.lab);
    ParseNumNonNegative(r.extra);
  }

  /** Fee texts that are switched off (by `free` or a cleared `include`
      flag) do not affect the total. */
  lemma RowTotalIgnoresGatedText(r: Row, amount: string, twoE: string, lab: string, extra: string)
    ensures ComputeRowTotal(r.(
        amount := if r.free then amount else r.amount,
        twoE := if r.includeTwoE then r.twoE else twoE,
        lab := if r.includeLab then r.lab else lab,
        extra := if r.includeExtra then r.extra else extra))
      == ComputeRowTotal(r)
  {
  }

  /** Worked example: a fee of 500 plus an included 200 is 700. */
  lemma RowTotalExample(id: string)
    ensures ComputeRowTotal(Row(id, "", "", false, "500", true, "200", false, "", "", false, "")) == 700
  {
    assert NatToString(500) == "500";
    assert NatToString(200) == "200";
    ParseNumOfNumeral(500, "500");
    ParseNumOfNumeral(200, "200");
  }

  /** Worked example: a free visit whose only included fee is unreadable
      ("abc") is 0. */
  lemma RowTotalUnreadableExample(id: string)
    ensures ComputeRowTotal(Row(id, "", "", true, "999", true, "abc", false, "", "", false, "")) == 0
  {
    var r := Row(id, "", "", true, "999", true, "abc", false, "", "", false, "");
    assert r.twoE == "abc" && r.twoE[0] == 'a' && r.twoE[1] == 'b' && r.twoE[2] == 'c';
    ParseNumNoDigits(r.twoE);
    assert ComputeRowTotal(r) == ParseNum(r.twoE);
  }

  /** `rows.map(row => row.id === id ? { ...row, ...patch } : row)`
      (the storage-only ledger's update). */
  function UpdateRows(rows: seq<Row>, id: string, patch: Patch): (r: seq<Row>)
    ensures |r| == |rows|
    ensures forall i :: 0 <= i < |rows| ==>
      r[i] == if rows[i].id == id then ApplyPatch(rows[i], patch) else rows[i]
    ensures (forall i :: 0 <= i < |rows| ==> rows[i].id != id) ==> r == rows
  {
    MapWhere(rows, (x: Row) => x.id == id, (x: Row) => ApplyPatch(x, patch))
  }

  /** `rows.filter(r => r.id !== id)` (the storage-only ledger's removal). */
  function RemoveRows(rows: seq<Row>, id: string): (r: seq<Row>)
    ensures forall x :: x in r <==> x in rows && x.id != id
    ensures (forall i :: 0 <= i < |rows| ==> rows[i].id != id) ==> r == rows
  {
    FilterKeepsAll(rows, (x: Row) => x.id != id);
    Filter(rows, (x: Row) => x.id != id)
  }

  /** Removal keeps the order of the rows that survive. */
  lemma RemoveRowsAppend(a: seq<Row>, b: seq<Row>, id: string)
    ensures RemoveRows(a + b, id) == RemoveRows(a, id) + RemoveRows(b, id)
  {
    FilterAppend(a, b, (x: Row) => x.id != id);
  }

  /** A single row survives removal exactly when its id differs; with
      `RemoveRowsAppend` this fixes the result of every removal. */
  lemma RemoveRowsSingle(x: Row, id: string)
    ensures RemoveRows([x], id) == if x.id != id then [x] else []
  {
    assert [x][1..] == [];
  }

  /** The rows of the remote-backed ledger without their `synced` flags. */
  function Plain(es: seq<SyncRow>): (r: seq<Row>)
    ensures |r| == |es| && forall i :: 0 <= i < |es| ==> r[i] == es[i].row
  {
    seq(|es|, i requires 0 <= i < |es| => es[i].row)
  }

  /** The remote-backed update: `{ ...row, ...patch, synced: false }` on
      the rows with that id, the others as they were. */
  function UpdateEntries(es: seq<SyncRow>, id: string, patch: Patch): (r: seq<SyncRow>)
    ensures |r| == |es|
    ensures forall i :: 0 <= i < |es| ==>
      r[i] == if es[i].row.id == id then SyncRow(ApplyPatch(es[i].row, patch), false) else es[i]
    ensures (forall i :: 0 <= i < |es| ==> es[i].row.id != id) ==> r == es
  {
    MapWhere(es, (e: SyncRow) => e.row.id == id,
                 (e: SyncRow) => SyncRow(ApplyPatch(e.row, patch), false))
  }

  /** After a confirmed upsert: `synced` set on the rows with that id and
      on no other row; every row's fields are untouched. */
  function MarkSynced(es: seq<SyncRow>, id: string): (r: seq<SyncRow>)
    ensures |r| == |es| && Plain(r) == Plain(es)
    ensures forall i :: 0 <= i < |es| ==>
      r[i].synced == (es[i].synced || es[i].row.id == id)
  {
    MapWhere(es, (e: SyncRow) => e.row.id == id, (e: SyncRow) => SyncRow(e.row, true))
  }

  /** The remote-backed removal: `rows.filter(r => r.id !== id)`. */
  function RemoveEntries(es: seq<SyncRow>, id: string): (r: seq<SyncRow>)
    ensures forall x :: x in r <==> x in es && x.row.id != id
    ensures (forall i :: 0 <= i < |es| ==> es[i].row.id != id) ==> r == es
  {
    FilterKeepsAll(es, (e: SyncRow) => e.row.id != id);
    Filter(es, (e: SyncRow) => e.row.id != id)
  }

  /** Removal keeps the order of the rows that survive. */
  lemma RemoveEntriesAppend(a: seq<SyncRow>, b: seq<SyncRow>, id: string)
    ensures RemoveEntries(a + b, id) == RemoveEntries(a, id) + RemoveEntries(b, id)
  {
    FilterAppend(a, b, (e: SyncRow) => e.row.id != id);
  }

  /** A single row survives removal exactly when its id differs; with
      `RemoveEntriesAppend` this fixes the result of every removal. */
  lemma RemoveEntriesSingle(x: SyncRow, id: string)
    ensures RemoveEntries([x], id) == if x.row.id != id then [x] else []
  {
    assert [x][1..] == [];
  }

  /** `rows.find(r => r.id === id)`: the first row with that id, if any. */
  function FindEntry(es: seq<SyncRow>, id: string): (r: Option<SyncRow>)
    ensures r.None? <==> forall i :: 0 <= i < |es| ==> es[i].row.id != id
    ensures r.Some? ==> r.value.row.id == id
    ensures r.Some? ==> exists i :: 0 <= i < |es| && es[i] == r.value &&
                          forall j :: 0 <= j < i ==> es[j].row.id != id
  {
    if es == [] then None
    else if es[0].row.id == id then Some(es[0])
    else
      var rest := FindEntry(es[1..], id);
      if rest.Some? then
        var i :| 0 <= i < |es| - 1 && es[1..][i] == rest.value &&
                 forall j :: 0 <= j < i ==> es[1..][j].row.id != id;
        assert es[i + 1] == rest.value;
        assert forall j :: 0 <= j < i + 1 ==> es[j].row.id != id by {
          forall j | 0 <= j < i + 1 ensures es[j].row.id != id {
            if j > 0 { assert es[j] == es[1..][j - 1]; }
          }
        }
        rest
      else
        rest
  }
}
