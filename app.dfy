/** The page component's own logic over the remote-backed ledger
    (src/App.tsx): the day's total and the "add sample patients" button. */
module Clinic {
  import opened Strings
  import opened Money
  import opened Records
  import opened SyncStore

  /** `rows.reduce((sum, r) => sum + computeRowTotal(r), 0)`. */
  function DailyTotal(es: seq<SyncRow>): int
  {
    if es == [] then 0 else DailyTotal(es[..|es| - 1]) + ComputeRowTotal(es[|es| - 1].row)
  }

  /** The total of two row lists one after the other is the sum of their totals. */
  lemma {:induction false} DailyTotalAppend(a: seq<SyncRow>, b: seq<SyncRow>)
    ensures DailyTotal(a + b) == DailyTotal(a) + DailyTotal(b)
  {
    if b == [] {
      assert a + b == a;
    } else {
      assert (a + b)[..|a + b| - 1] == a + b[..|b| - 1];
      DailyTotalAppend(a, b[..|b| - 1]);
    }
  }

  /** The total depends on the rows' fields only, never on `synced`. */
  lemma {:induction false} DailyTotalOfPlain(a: seq<SyncRow>, b: seq<SyncRow>)
    requires Plain(a) == Plain(b)
    ensures DailyTotal(a) == DailyTotal(b)
  {
    if a != [] {
      assert a[|a| - 1].row == Plain(a)[|a| - 1] == b[|b| - 1].row;
      assert Plain(a[..|a| - 1]) == Plain(a)[..|a| - 1];
      assert Plain(b[..|b| - 1]) == Plain(b)[..|b| - 1];
      DailyTotalOfPlain(a[..|a| - 1], b[..|b| - 1]);
    }
  }

  /** A confirmed upsert and a reload from storage leave the total as it was. */
  lemma SyncKeepsTotal(es: seq<SyncRow>, id: string, connected: bool)
    ensures DailyTotal(MarkSynced(es, id)) == DailyTotal(es)
    ensures DailyTotal(MarkLoaded(es, connected)) == DailyTotal(es)
  {
    DailyTotalOfPlain(MarkSynced(es, id), es);
    DailyTotalOfPlain(MarkLoaded(es, connected), es);
  }

  /** Adding a row leaves the total as it was. */
  lemma AddRowKeepsTotal(es: seq<SyncRow>, freshId: string, synced: bool)
    ensures DailyTotal(es + [SyncRow(EmptyRow(freshId), synced)]) == DailyTotal(es)
  {
    DailyTotalAppend(es, [SyncRow(EmptyRow(freshId), synced)]);
    assert DailyTotal([SyncRow(EmptyRow(freshId), synced)]) == 0 by {
      assert [SyncRow(EmptyRow(freshId), synced)][..0] == [];
    }
  }

  /** With no minus sign in any fee text the day's total is not negative. */
  lemma {:induction false} DailyTotalNonNegative(es: seq<SyncRow>)
    requires forall i :: 0 <= i < |es| ==>
      '-' !in es[i].row.amount && '-' !in es[i].row.twoE && '-' !in es[i].row.lab && '-' !in es[i].row.extra
    ensures DailyTotal(es) >= 0
  {
    if es != [] {
      RowTotalNonNegative(es[|es| - 1].row);
      DailyTotalNonNegative(es[..|es| - 1]);
    }
  }

  /** Fifteen visits the button is meant to show (name, visit type and fees;
      the id is given when a row is made). */
  const SamplePatients: seq<Row> := [
    Row("", "Rajesh Kumar", "Follow-up", false, "500", true, "200", false, "", "BP normal, continue medication", false, ""),
    Row("", "Priya Sharma", "New Patient", false, "800", false, "", true, "300", "Diabetes screening required", false, ""),
    Row("", "Mohammed Ali", "Consultation", true, "", false, "", false, "", "Free consultation - community service", false, ""),
    Row("", "Sunita Devi", "Follow-up", false, "400", true, "150", false, "", "Hypertension stable", false, ""),
    Row("", "Arjun Patel", "New Patient", false, "600", false, "", true, "250", "Chest pain evaluation", true, "100"),
    Row("", "Kavita Singh", "Review", false, "350", true, "200", false, "", "Thyroid levels normal", false, ""),
    Row("", "Deepak Gupta", "Consultation", false, "450", false, "", true, "400", "Liver function tests", false, ""),
    Row("", "Meera Joshi", "Follow-up", false, "300", true, "150", false, "", "Migraine improving", false, ""),
    Row("", "Vikram Yadav", "New Patient", false, "700", false, "", true, "350", "Cardiac evaluation", true, "200"),
    Row("", "Anita Reddy", "Consultation", true, "", false, "", false, "", "Senior citizen free checkup", false, ""),
    Row("", "Rohit Mehta", "Follow-up", false, "400", true, "180", false, "", "Diabetes well controlled", false, ""),
    Row("", "Sushma Iyer", "Review", false, "550", false, "", true, "300", "Kidney function normal", false, ""),
    Row("", "Amit Agarwal", "New Patient", false, "650", true, "200", true, "250", "Complete health checkup", false, ""),
    Row("", "Pooja Bansal", "Consultation", false, "380", false, "", false, "", "Skin allergy treatment", true, "120"),
    Row("", "Ravi Tiwari", "Follow-up", false, "420", true, "160", true, "200", "Post-surgery recovery good", false, "")
  ]

  /** Every sample visit has a patient name. */
  lemma SamplesAreNamed()
    ensures |SamplePatients| == 15
    ensures forall i :: 0 <= i < |SamplePatients| ==> SamplePatients[i].name != ""
  {
    var s := SamplePatients;
    assert s[0].name != "" && s[1].name != "" && s[2].name != "" && s[3].name != "" && s[4].name != "";
    assert s[5].name != "" && s[6].name != "" && s[7].name != "" && s[8].name != "" && s[9].name != "";
    assert s[10].name != "" && s[11].name != "" && s[12].name != "" && s[13].name != "" && s[14].name != "";
  }

  /** `addSamplePatients` as written: one `addRow()` per sample, so the
      sample data itself is never used. */
  method AddSamplePatients(ledger: SyncLedger, freshIds: seq<string>)
    requires |freshIds| == |SamplePatients|
    modifies ledger`rows, ledger`storage
    ensures ledger.rows == old(ledger.rows)
      + seq(|freshIds|, i requires 0 <= i < |freshIds| => SyncRow(EmptyRow(freshIds[i]), false))
    ensures ledger.storage == old(ledger.storage)[SyncKey(ledger.date) := Json(ledger.rows)]
    ensures ledger.Mirrored()
  {
    ghost var before := ledger.rows;
    SamplesAreNamed();
    for k := 0 to |SamplePatients|
      invariant ledger.rows == before
        + seq(k, i requires 0 <= i < k => SyncRow(EmptyRow(freshIds[i]), false))
      invariant ledger.storage == if k == 0 then old(ledger.storage)
        else old(ledger.storage)[SyncKey(ledger.date) := Json(ledger.rows)]
    {
      ledger.AddRow(freshIds[k]);
      assert seq(k + 1, i requires 0 <= i < k + 1 => SyncRow(EmptyRow(freshIds[i]), false))
          == seq(k, i requires 0 <= i < k => SyncRow(EmptyRow(freshIds[i]), false))
             + [SyncRow(EmptyRow(freshIds[k]), false)];
    }
  }

  /** Rows that each total 0 add nothing to the day. */
  lemma {:induction false} ZeroRowsTotal(es: seq<SyncRow>)
    requires forall i :: 0 <= i < |es| ==> ComputeRowTotal(es[i].row) == 0
    ensures DailyTotal(es) == 0
  {
    if es != [] {
      ZeroRowsTotal(es[..|es| - 1]);
    }
  }

  /** The rows the button adds as written carry no fee: the day's total
      is unchanged. */
  lemma SampleRowsAreBlank(before: seq<SyncRow>, freshIds: seq<string>)
    ensures var added := seq(|freshIds|, i requires 0 <= i < |freshIds| => SyncRow(EmptyRow(freshIds[i]), false));
      DailyTotal(before + added) == DailyTotal(before)
  {
    var added := seq(|freshIds|, i requires 0 <= i < |freshIds| => SyncRow(EmptyRow(freshIds[i]), false));
    forall i | 0 <= i < |added| ensures ComputeRowTotal(added[i].row) == 0 {
      EmptyRowIsZero(freshIds[i]);
    }
    ZeroRowsTotal(added);
    DailyTotalAppend(before, added);
  }

  /** The sample visit `i` as a row with the given id. */
  function SampleRow(id: string, i: nat): (r: Row)
    requires i < |SamplePatients|
    ensures r.id == id && r.name == SamplePatients[i].name != ""
  {
    SamplesAreNamed();
    SamplePatients[i].(id := id)
  }

  /** `addSamplePatients` as evidently intended: one unsaved-to-the-cloud
      row per sample, filled with that sample's fields. */
  method AddSamplePatientsFilled(ledger: SyncLedger, freshIds: seq<string>)
    requires |freshIds| == |SamplePatients|
    modifies ledger`rows, ledger`storage
    ensures ledger.rows == old(ledger.rows)
      + seq(|freshIds|, i requires 0 <= i < |freshIds| => SyncRow(SampleRow(freshIds[i], i), false))
    ensures ledger.storage == old(ledger.storage)[SyncKey(ledger.date) := Json(ledger.rows)]
    ensures ledger.Mirrored()
  {
    ghost var before := ledger.rows;
    for k := 0 to |SamplePatients|
      invariant ledger.rows == before
        + seq(k, i requires 0 <= i < k => SyncRow(SampleRow(freshIds[i], i), false))
      invariant ledger.storage == old(ledger.storage)
    {
      ledger.rows := ledger.rows + [SyncRow(SampleRow(freshIds[k], k), false)];
      assert seq(k + 1, i requires 0 <= i < k + 1 => SyncRow(SampleRow(freshIds[i], i), false))
          == seq(k, i requires 0 <= i < k => SyncRow(SampleRow(freshIds[i], i), false))
             + [SyncRow(SampleRow(freshIds[k], k), false)];
    }
    ledger.storage := ledger.storage[SyncKey(ledger.date) := Json(ledger.rows)];
  }

  /** The sum of the totals of the first `k` rows of `ps`. */
  function PrefixTotal(ps: seq<Row>, k: nat): int
    requires k <= |ps|
  {
    if k == 0 then 0 else PrefixTotal(ps, k - 1) + ComputeRowTotal(ps[k - 1])
  }

  /** The rows `ps` given fresh ids, as new unsynced rows. */
  function WithIds(ps: seq<Row>, ids: seq<string>, k: nat): seq<SyncRow>
    requires k <= |ps| && k <= |ids|
  {
    seq(k, i requires 0 <= i < k => SyncRow(ps[i].(id := ids[i]), false))
  }

  /** Giving the first `k` rows fresh ids removes one row from the end. */
  lemma WithIdsStep(ps: seq<Row>, ids: seq<string>, k: nat)
    requires 0 < k <= |ps| && k <= |ids|
    ensures WithIds(ps, ids, k)[..k - 1] == WithIds(ps, ids, k - 1)
    ensures WithIds(ps, ids, k)[k - 1].row == ps[k - 1].(id := ids[k - 1])
  {
  }

  /** Rows given fresh ids total what they totalled before: a row's id
      does not enter its total. */
  lemma {:induction false} FreshRowsTotal(ps: seq<Row>, ids: seq<string>, k: nat)
    requires k <= |ps| && k <= |ids|
    ensures DailyTotal(WithIds(ps, ids, k)) == PrefixTotal(ps, k)
  {
    if k > 0 {
      WithIdsStep(ps, ids, k);
      FreshRowsTotal(ps, ids, k - 1);
    }
  }



  /* The total of each sample visit. Each proof names the row, states its
     switches and those fee texts that count as digit sequences, and reads
     each fee with `ParseNumOfThreeDigits`. */
  lemma SampleTotal0()
    ensures ComputeRowTotal(SamplePatients[0]) == 700
  {
    var r := SamplePatients[0];
    assert !r.free && r.amount == [DigitChar(5), DigitChar(0), DigitChar(0)];
    assert r.includeTwoE && r.twoE == [DigitChar(2), DigitChar(0), DigitChar(0)];
    assert !r.includeLab;
    assert !r.includeExtra;
    ParseNumOfThreeDigits(5, 0, 0);
    ParseNumOfThreeDigits(2, 0, 0);
    assert ParseNum(r.amount) + ParseNum(r.twoE) == 700;
  }

  lemma SampleTotal1()
    ensures ComputeRowTotal(SamplePatients[1]) == 1100
  {
    var r := SamplePatients[1];
    assert !r.free && r.amount == [DigitChar(8), DigitChar(0), DigitChar(0)];
    assert !r.includeTwoE;
    assert r.includeLab && r.lab == [DigitChar(3), DigitChar(0), DigitChar(0)];
    assert !r.includeExtra;
    ParseNumOfThreeDigits(8, 0, 0);
    ParseNumOfThreeDigits(3, 0, 0);
    assert ParseNum(r.amount) + ParseNum(r.lab) == 1100;
  }

  lemma SampleTotal2()
    ensures ComputeRowTotal(SamplePatients[2]) == 0
  {
    var r := SamplePatients[2];
    assert r.free;
    assert !r.includeTwoE;
    assert !r.includeLab;
    assert !r.includeExtra;
  }

  lemma SampleTotal3()
    ensures ComputeRowTotal(SamplePatients[3]) == 550
  {
    var r := SamplePatients[3];
    assert !r.free && r.amount == [DigitChar(4), DigitChar(0), DigitChar(0)];
    assert r.includeTwoE && r.twoE == [DigitChar(1), DigitChar(5), DigitChar(0)];
    assert !r.includeLab;
    assert !r.includeExtra;
    ParseNumOfThreeDigits(4, 0, 0);
    ParseNumOfThreeDigits(1, 5, 0);
    assert ParseNum(r.amount) + ParseNum(r.twoE) == 550;
  }

  lemma SampleTotal4()
    ensures ComputeRowTotal(SamplePatients[4]) == 950
  {
    var r := SamplePatients[4];
    assert !r.free && r.amount == [DigitChar(6), DigitChar(0), DigitChar(0)];
    assert !r.includeTwoE;
    assert r.includeLab && r.lab == [DigitChar(2), DigitChar(5), DigitChar(0)];
    assert r.includeExtra && r.extra == [DigitChar(1), DigitChar(0), DigitChar(0)];
    ParseNumOfThreeDigits(6, 0, 0);
    ParseNumOfThreeDigits(2, 5, 0);
    ParseNumOfThreeDigits(1, 0, 0);
    assert ParseNum(r.amount) + ParseNum(r.lab) + ParseNum(r.extra) == 950;
  }

  lemma SampleTotal5()
    ensures ComputeRowTotal(SamplePatients[5]) == 550
  {
    var r := SamplePatients[5];
    assert !r.free && r.amount == [DigitChar(3), DigitChar(5), DigitChar(0)];
    assert r.includeTwoE && r.twoE == [DigitChar(2), DigitChar(0), DigitChar(0)];
    assert !r.includeLab;
    assert !r.includeExtra;
    ParseNumOfThreeDigits(3, 5, 0);
    ParseNumOfThreeDigits(2, 0, 0);
    assert ParseNum(r.amount) + ParseNum(r.twoE) == 550;
  }

  lemma SampleTotal6()
    ensures ComputeRowTotal(SamplePatients[6]) == 850
  {
    var r := SamplePatients[6];
    assert !r.free && r.amount == [DigitChar(4), DigitChar(5), DigitChar(0)];
    assert !r.includeTwoE;
    assert r.includeLab && r.lab == [DigitChar(4), DigitChar(0), DigitChar(0)];
    assert !r.includeExtra;
    ParseNumOfThreeDigits(4, 5, 0);
    ParseNumOfThreeDigits(4, 0, 0);
    assert ParseNum(r.amount) + ParseNum(r.lab) == 850;
  }

  lemma SampleTotal7()
    ensures ComputeRowTotal(SamplePatients[7]) == 450
  {
    var r := SamplePatients[7];
    assert !r.free && r.amount == [DigitChar(3), DigitChar(0), DigitChar(0)];
    assert r.includeTwoE && r.twoE == [DigitChar(1), DigitChar(5), DigitChar(0)];
    assert !r.includeLab;
    assert !r.includeExtra;
    ParseNumOfThreeDigits(3, 0, 0);
    ParseNumOfThreeDigits(1, 5, 0);
    assert ParseNum(r.amount) + ParseNum(r.twoE) == 450;
  }

  lemma SampleTotal8()
    ensures ComputeRowTotal(SamplePatients[8]) == 1250
  {
    var r := SamplePatients[8];
    assert !r.free && r.amount == [DigitChar(7), DigitChar(0), DigitChar(0)];
    assert !r.includeTwoE;
    assert r.includeLab && r.lab == [DigitChar(3), DigitChar(5), DigitChar(0)];
    assert r.includeExtra && r.extra == [DigitChar(2), DigitChar(0), DigitChar(0)];
    ParseNumOfThreeDigits(7, 0, 0);
    ParseNumOfThreeDigits(3, 5, 0);
    ParseNumOfThreeDigits(2, 0, 0);
    assert ParseNum(r.amount) + ParseNum(r.lab) + ParseNum(r.extra) == 1250;
  }

  lemma SampleTotal9()
    ensures ComputeRowTotal(SamplePatients[9]) == 0
  {
    var r := SamplePatients[9];
    assert r.free;
    assert !r.includeTwoE;
    assert !r.includeLab;
    assert !r.includeExtra;
  }

  lemma SampleTotal10()
    ensures ComputeRowTotal(SamplePatients[10]) == 580
  {
    var r := SamplePatients[10];
    assert !r.free && r.amount == [DigitChar(4), DigitChar(0), DigitChar(0)];
    assert r.includeTwoE && r.twoE == [DigitChar(1), DigitChar(8), DigitChar(0)];
    assert !r.includeLab;
    assert !r.includeExtra;
    ParseNumOfThreeDigits(4, 0, 0);
    ParseNumOfThreeDigits(1, 8, 0);
    assert ParseNum(r.amount) + ParseNum(r.twoE) == 580;
  }

  lemma SampleTotal11()
    ensures ComputeRowTotal(SamplePatients[11]) == 850
  {
    var r := SamplePatients[11];
    assert !r.free && r.amount == [DigitChar(5), DigitChar(5), DigitChar(0)];
    assert !r.includeTwoE;
    assert r.includeLab && r.lab == [DigitChar(3), DigitChar(0), DigitChar(0)];
    assert !r.includeExtra;
    ParseNumOfThreeDigits(5, 5, 0);
    ParseNumOfThreeDigits(3, 0, 0);
    assert ParseNum(r.amount) + ParseNum(r.lab) == 850;
  }

  lemma SampleTotal12()
    ensures ComputeRowTotal(SamplePatients[12]) == 1100
  {
    var r := SamplePatients[12];
    assert !r.free && r.amount == [DigitChar(6), DigitChar(5), DigitChar(0)];
    assert r.includeTwoE && r.twoE == [DigitChar(2), DigitChar(0), DigitChar(0)];
    assert r.includeLab && r.lab == [DigitChar(2), DigitChar(5), DigitChar(0)];
    assert !r.includeExtra;
    ParseNumOfThreeDigits(6, 5, 0);
    ParseNumOfThreeDigits(2, 0, 0);
    ParseNumOfThreeDigits(2, 5, 0);
    assert ParseNum(r.amount) + ParseNum(r.twoE) + ParseNum(r.lab) == 1100;
  }

  lemma SampleTotal13()
    ensures ComputeRowTotal(SamplePatients[13]) == 500
  {
    var r := SamplePatients[13];
    assert !r.free && r.amount == [DigitChar(3), DigitChar(8), DigitChar(0)];
    assert !r.includeTwoE;
    assert !r.includeLab;
    assert r.includeExtra && r.extra == [DigitChar(1), DigitChar(2), DigitChar(0)];
    ParseNumOfThreeDigits(3, 8, 0);
    ParseNumOfThreeDigits(1, 2, 0);
    assert ParseNum(r.amount) + ParseNum(r.extra) == 500;
  }

  lemma SampleTotal14()
    ensures ComputeRowTotal(SamplePatients[14]) == 780
  {
    var r := SamplePatients[14];
    assert !r.free && r.amount == [DigitChar(4), DigitChar(2), DigitChar(0)];
    assert r.includeTwoE && r.twoE == [DigitChar(1), DigitChar(6), DigitChar(0)];
    assert r.includeLab && r.lab == [DigitChar(2), DigitChar(0), DigitChar(0)];
    assert !r.includeExtra;
    ParseNumOfThreeDigits(4, 2, 0);
    ParseNumOfThreeDigits(1, 6, 0);
    ParseNumOfThreeDigits(2, 0, 0);
    assert ParseNum(r.amount) + ParseNum(r.twoE) + ParseNum(r.lab) == 780;
  }

  /** The fifteen sample visits total 10210 rupees. */
  lemma SampleSumValue()
    ensures PrefixTotal(SamplePatients, 15) == 10210
  {
    SampleTotal0();
    SampleTotal1();
    SampleTotal2();
    SampleTotal3();
    SampleTotal4();
    SampleTotal5();
    SampleTotal6();
    SampleTotal7();
    SampleTotal8();
    SampleTotal9();
    SampleTotal10();
    SampleTotal11();
    SampleTotal12();
    SampleTotal13();
    SampleTotal14();
  }

  /** The fifteen rows the corrected button adds total 10210 rupees,
      whatever ids they get. */
  lemma SampleRowsTotal(freshIds: seq<string>)
    requires |freshIds| == |SamplePatients|
    ensures DailyTotal(seq(|freshIds|, i requires 0 <= i < |freshIds| => SyncRow(SampleRow(freshIds[i], i), false))) == 10210
  {
    var added := seq(|freshIds|, i requires 0 <= i < |freshIds| => SyncRow(SampleRow(freshIds[i], i), false));
    assert added == WithIds(SamplePatients, freshIds, 15);
    FreshRowsTotal(SamplePatients, freshIds, 15);
    SampleSumValue();
  }

  /** The rows the corrected button adds carry the sample visits, each with
      a patient name, and raise the day's total by the 10210 rupees the
      samples' fees come to. */
  lemma SampleRowsAreFilled(before: seq<SyncRow>, freshIds: seq<string>)
    requires |freshIds| == |SamplePatients|
    ensures var added := seq(|freshIds|, i requires 0 <= i < |freshIds| => SyncRow(SampleRow(freshIds[i], i), false));
      DailyTotal(added) == 10210 && DailyTotal(before + added) == DailyTotal(before) + 10210
      && forall i :: 0 <= i < |added| ==> added[i].row.name == SamplePatients[i].name != ""
  {
    var added := seq(|freshIds|, i requires 0 <= i < |freshIds| => SyncRow(SampleRow(freshIds[i], i), false));
    SampleRowsTotal(freshIds);
    DailyTotalAppend(before, added);
    assert forall i :: 0 <= i < |added| ==> added[i].row.name == SamplePatients[i].name != "" by {
      SamplesAreNamed();
    }
  }
}
