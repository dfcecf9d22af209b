/** The CSV export of the day's ledger (src/App.tsx): `csvEscape` and the
    lines `exportCSV` builds. A field holding a double quote, a comma or a
    line feed is quoted and its quotes doubled, a partial form of the
    quoting rules of RFC 4180, section 2, items 6 and 7 (a carriage return
    alone is not quoted, and lines end with a line feed, not CRLF). */
module CsvExport {
  import opened Wrappers
  import opened Strings
  import opened Money
  import opened Records
  import opened Clinic
  import opened Sequences

  /** The characters that make `csvEscape` quote a field. */
  predicate NeedsQuoting(s: string)
  {
    '"' in s || ',' in s || '\n' in s
  }

  /** `s.replace(/"/g, '""')`. */
  function DoubleQuotes(s: string): (r: string)
    ensures |r| >= |s|
    ensures '"' !in s ==> r == s
  {
    if s == [] then []
    else (if s[0] == '"' then "\"\"" else [s[0]]) + DoubleQuotes(s[1..])
  }

  /** `csvEscape`: the field as it stands when it holds none of `"`, `,`
      and line feed; otherwise its quotes doubled, inside quotes. */
  function CsvEscape(s: string): string
  {
    var escaped := DoubleQuotes(s);
    if NeedsQuoting(s) then "\"" + escaped + "\"" else escaped
  }

  /** A field is left as it stands exactly when it needs no quoting, and
      is otherwise quoted. */
  lemma CsvEscapeCases(s: string)
    ensures CsvEscape(s) == s <==> !NeedsQuoting(s)
    ensures NeedsQuoting(s) ==> CsvEscape(s) == "\"" + DoubleQuotes(s) + "\""
  {
  }

  /** A carriage return alone does not make a field quoted. */
  lemma CarriageReturnNotQuoted()
    ensures CsvEscape("a\rb") == "a\rb"
  {
    assert !NeedsQuoting("a\rb") by {
      assert "a\rb"[0] == 'a' && "a\rb"[1] == '\r' && "a\rb"[2] == 'b';
    }
  }

  /** A reader of quoted field text, positioned after the opening quote:
      `""` stands for one quote, a lone quote closes the field. It gives
      the field and the text after the closing quote. */
  function ReadQuoted(t: string): (r: Option<(string, string)>)
    ensures r.Some? ==> |r.value.1| < |t|
  {
    if t == [] then None
    else if t[0] == '"' then
      if |t| > 1 && t[1] == '"' then
        var rest := ReadQuoted(t[2..]);
        if rest.Some? then Some(("\"" + rest.value.0, rest.value.1)) else None
      else Some(("", t[1..]))
    else
      var rest := ReadQuoted(t[1..]);
      if rest.Some? then Some(([t[0]] + rest.value.0, rest.value.1)) else None
  }

  /** A reader of unquoted field text: everything up to the next comma or
      line feed. */
  function ReadPlain(t: string): (r: (string, string))
    ensures r.0 + r.1 == t
  {
    if t == [] || t[0] == ',' || t[0] == '\n' then ("", t)
    else
      var rest := ReadPlain(t[1..]);
      ([t[0]] + rest.0, rest.1)
  }

  /** One field of a CSV line, read the way RFC 4180 reads it. */
  function ReadField(t: string): (r: Option<(string, string)>)
    ensures r.Some? ==> |r.value.1| <= |t|
  {
    if t != [] && t[0] == '"' then ReadQuoted(t[1..]) else Some(ReadPlain(t))
  }

  /** The fields of one CSV line, read up to the end of the text. */
  function ReadRecord(t: string): Option<seq<string>>
    decreases |t|
  {
    var f := ReadField(t);
    if f.None? then None
    else if f.value.1 == [] then Some([f.value.0])
    else if f.value.1[0] == ',' then
      var rest := ReadRecord(f.value.1[1..]);
      if rest.Some? then Some([f.value.0] + rest.value) else None
    else None
  }

  /** The reader's three steps, each on text of a known first character. */
  lemma ReadQuotedEnd(u: string)
    requires u == [] || u[0] != '"'
    ensures ReadQuoted("\"" + u) == Some(("", u))
  {
    assert ("\"" + u)[1..] == u;
  }

  lemma ReadQuotedPair(u: string)
    ensures ReadQuoted("\"\"" + u)
      == var r := ReadQuoted(u); if r.Some? then Some(("\"" + r.value.0, r.value.1)) else None
  {
    assert ("\"\"" + u)[2..] == u;
  }

  lemma ReadQuotedChar(c: char, u: string)
    requires c != '"'
    ensures ReadQuoted([c] + u)
      == var r := ReadQuoted(u); if r.Some? then Some(([c] + r.value.0, r.value.1)) else None
  {
    assert ([c] + u)[1..] == u;
  }

  lemma {:induction false} QuotedRead(s: string, rest: string)
    requires rest == [] || rest[0] != '"'
    ensures ReadQuoted(DoubleQuotes(s) + "\"" + rest) == Some((s, rest))
  {
    var t := DoubleQuotes(s) + "\"" + rest;
    if s == [] {
      assert t == "\"" + rest;
      ReadQuotedEnd(rest);
    } else {
      var head := if s[0] == '"' then "\"\"" else [s[0]];
      var u := DoubleQuotes(s[1..]) + "\"" + rest;
      assert DoubleQuotes(s) == head + DoubleQuotes(s[1..]);
      AppendAssoc(head, DoubleQuotes(s[1..]), "\"" + rest);
      AppendAssoc(head + DoubleQuotes(s[1..]), "\"", rest);
      AppendAssoc(DoubleQuotes(s[1..]), "\"", rest);
      QuotedRead(s[1..], rest);
      if s[0] == '"' {
        assert t == "\"\"" + u;
        ReadQuotedPair(u);
        assert "\"" + s[1..] == s;
      } else {
        assert t == [s[0]] + u;
        ReadQuotedChar(s[0], u);
        assert [s[0]] + s[1..] == s;
      }
    }
  }

  lemma {:induction false} PlainRead(s: string, rest: string)
    requires ',' !in s && '\n' !in s
    requires rest == [] || rest[0] == ',' || rest[0] == '\n'
    ensures ReadPlain(s + rest) == (s, rest)
  {
    if s == [] {
      assert s + rest == rest;
    } else {
      assert (s + rest)[0] == s[0];
      assert (s + rest)[1..] == s[1..] + rest;
      PlainRead(s[1..], rest);
      assert [s[0]] + s[1..] == s;
    }
  }

  /** An escaped field followed by a comma, a line feed or the end of the
      text reads back as the field itself, whatever it holds. */
  lemma EscapeRead(s: string, rest: string)
    requires rest == [] || rest[0] == ',' || rest[0] == '\n'
    ensures ReadField(CsvEscape(s) + rest) == Some((s, rest))
  {
    var t := CsvEscape(s) + rest;
    CsvEscapeCases(s);
    if NeedsQuoting(s) {
      assert t == "\"" + (DoubleQuotes(s) + "\"" + rest);
      assert t[1..] == DoubleQuotes(s) + "\"" + rest;
      QuotedRead(s, rest);
    } else {
      if s != [] {
        assert t[0] == s[0];
        assert s[0] in s;
      }
      PlainRead(s, rest);
    }
  }

  function EscapeAll(fields: seq<string>): (r: seq<string>)
    ensures |r| == |fields| && forall i :: 0 <= i < |fields| ==> r[i] == CsvEscape(fields[i])
  {
    seq(|fields|, i requires 0 <= i < |fields| => CsvEscape(fields[i]))
  }

  /** A line of escaped fields joined by commas reads back as the fields. */
  lemma {:induction false} RecordRoundTrip(fields: seq<string>)
    requires fields != []
    ensures ReadRecord(Join(EscapeAll(fields), ",")) == Some(fields)
  {
    var escaped := EscapeAll(fields);
    if |fields| == 1 {
      assert Join(escaped, ",") == CsvEscape(fields[0]) + "";
      EscapeRead(fields[0], "");
      assert fields == [fields[0]];
    } else {
      var tail := Join(escaped[1..], ",");
      assert Join(escaped, ",") == CsvEscape(fields[0]) + ("," + tail);
      EscapeRead(fields[0], "," + tail);
      assert escaped[1..] == EscapeAll(fields[1..]);
      assert ("," + tail)[1..] == tail;
      RecordRoundTrip(fields[1..]);
      assert [fields[0]] + fields[1..] == fields;
    }
  }

  const Headers: seq<string> := [
    "Serial", "Patient Name", "Review", "Free", "Amount (\U{20B9})", "2E Included", "2E (\U{20B9})",
    "Lab Included", "Lab (\U{20B9})", "Obs", "Extra Included", "Extra (\U{20B9})",
    "Row Total (\U{20B9})", "Sync Status"]

  /** `headers.join(",")`. */
  function HeaderLine(): string
  {
    Join(Headers, ",")
  }

  function YesNo(b: bool): string
  {
    if b then "Yes" else "No"
  }

  function SyncStatus(synced: bool): string
  {
    if synced then "Synced" else "Local Only"
  }

  /** `String(on ? parseFloat(text) || 0 : 0)`. */
  function FeeColumn(on: bool, text: string): string
  {
    IntToString(if on then ParseFloatOrZero(text) else 0)
  }

  /** `String(total)` of the row. */
  function TotalColumn(r: Row): string
  {
    IntToString(ComputeRowTotal(r))
  }

  /** The values of data line `i` before escaping: the serial, the three
      texts, each flag as Yes/No, each fee (0 when switched off), the row
      total and the sync status. */
  function RowValues(i: nat, e: SyncRow): (v: seq<string>)
    ensures |v| == 14
  {
    var r := e.row;
    [NatToString(i + 1), r.name, r.review, YesNo(r.free), FeeColumn(!r.free, r.amount),
     YesNo(r.includeTwoE), FeeColumn(r.includeTwoE, r.twoE),
     YesNo(r.includeLab), FeeColumn(r.includeLab, r.lab), r.obs,
     YesNo(r.includeExtra), FeeColumn(r.includeExtra, r.extra),
     TotalColumn(r), SyncStatus(e.synced)]
  }

  /** The `items` of data line `i`: only the three texts are escaped. */
  function RowFields(i: nat, e: SyncRow): seq<string>
  {
    var r := e.row;
    [NatToString(i + 1), CsvEscape(r.name), CsvEscape(r.review), YesNo(r.free), FeeColumn(!r.free, r.amount),
     YesNo(r.includeTwoE), FeeColumn(r.includeTwoE, r.twoE),
     YesNo(r.includeLab), FeeColumn(r.includeLab, r.lab), CsvEscape(r.obs),
     YesNo(r.includeExtra), FeeColumn(r.includeExtra, r.extra),
     TotalColumn(r), SyncStatus(e.synced)]
  }

  function DataLine(i: nat, e: SyncRow): string
  {
    Join(RowFields(i, e), ",")
  }

  const TotalLabel := "Daily Total Revenue (\U{20B9})"

  /** The label quoted, then the comma before the amount. */
  const TotalPrefix := "\"Daily Total Revenue (\U{20B9})\","

  /** `"Daily Total Revenue (₹)",<total>`. */
  function TotalLine(total: int): string
  {
    TotalPrefix + IntToString(total)
  }

  /** One line per row, serial from 1. */
  function DataLines(es: seq<SyncRow>): (ls: seq<string>)
    ensures |ls| == |es| && forall i :: 0 <= i < |es| ==> ls[i] == DataLine(i, es[i])
  {
    seq(|es|, i requires 0 <= i < |es| => DataLine(i, es[i]))
  }

  lemma DataLinesAppend(es: seq<SyncRow>, k: nat)
    requires k < |es|
    ensures DataLines(es[..k + 1]) == DataLines(es[..k]) + [DataLine(k, es[k])]
  {
    assert DataLines(es[..k + 1])[k] == DataLine(k, es[k]);
  }

  /** The lines of the export: the header, one line per row (serial from
      1), an empty line and the total line. */
  function CsvLines(es: seq<SyncRow>): (ls: seq<string>)
    ensures |ls| == |es| + 3
    ensures ls[0] == HeaderLine() && ls[|es| + 1] == "" && ls[|es| + 2] == TotalLine(DailyTotal(es))
    ensures forall i :: 0 <= i < |es| ==> ls[i + 1] == DataLine(i, es[i])
  {
    [HeaderLine()] + DataLines(es) + ["", TotalLine(DailyTotal(es))]
  }

  /** `exportCSV` up to the download: the lines pushed one by one, then
      joined with line feeds. */
  method ExportCsv(es: seq<SyncRow>) returns (content: string)
    ensures content == Join(CsvLines(es), "\n")
  {
    var lines: seq<string> := [HeaderLine()];
    var idx := 0;
    while idx < |es|
      invariant 0 <= idx <= |es|
      invariant lines == [HeaderLine()] + DataLines(es[..idx])
    {
      DataLinesAppend(es, idx);
      AppendAssoc([HeaderLine()], DataLines(es[..idx]), [DataLine(idx, es[idx])]);
      lines := lines + [DataLine(idx, es[idx])];
      idx := idx + 1;
    }
    assert es[..idx] == es;
    AppendPair(lines, "", TotalLine(DailyTotal(es)));
    lines := lines + [""];
    lines := lines + [TotalLine(DailyTotal(es))];
    content := Join(lines, "\n");
  }

  /** Numbers written with `String` never need quoting. */
  lemma NumeralNeedsNoQuoting(k: int)
    ensures CsvEscape(IntToString(k)) == IntToString(k)
  {
    var s := IntToString(k);
    forall i | 0 <= i < |s| ensures s[i] != '"' && s[i] != ',' && s[i] != '\n' {
      if i > 0 { assert IsDigit(s[i]); }
    }
  }

  lemma FeeColumnNeedsNoQuoting(on: bool, text: string)
    ensures CsvEscape(FeeColumn(on, text)) == FeeColumn(on, text)
  {
    NumeralNeedsNoQuoting(if on then ParseFloatOrZero(text) else 0);
  }

  lemma WordsNeedNoQuoting(b: bool)
    ensures CsvEscape(YesNo(b)) == YesNo(b) && CsvEscape(SyncStatus(b)) == SyncStatus(b)
  {
    assert !NeedsQuoting("Yes") by { assert "Yes" == ['Y', 'e', 's']; }
    assert !NeedsQuoting("No") by { assert "No" == ['N', 'o']; }
    assert !NeedsQuoting("Synced") by { assert "Synced" == ['S', 'y', 'n', 'c', 'e', 'd']; }
    assert !NeedsQuoting("Local Only") by {
      assert "Local Only" == ['L', 'o', 'c', 'a', 'l', ' ', 'O', 'n', 'l', 'y'];
    }
  }

  /** A fourteen-field line whose other fields an escape leaves alone is
      the escape of all its fields when fields 1, 2 and 9 are escaped. */
  lemma EscapeListed<T>(esc: T -> T, a0: T, a1: T, a2: T, a3: T, a4: T, a5: T, a6: T,
                        a7: T, a8: T, a9: T, a10: T, a11: T, a12: T, a13: T)
    requires esc(a0) == a0 && esc(a3) == a3 && esc(a4) == a4 && esc(a5) == a5
    requires esc(a6) == a6 && esc(a7) == a7 && esc(a8) == a8 && esc(a10) == a10
    requires esc(a11) == a11 && esc(a12) == a12 && esc(a13) == a13
    ensures var v := [a0, a1, a2, a3, a4, a5, a6, a7, a8, a9, a10, a11, a12, a13];
      [a0, esc(a1), esc(a2), a3, a4, a5, a6, a7, a8, esc(a9), a10, a11, a12, a13]
      == seq(|v|, k requires 0 <= k < |v| => esc(v[k]))
  {
  }

  /** The columns of a data line other than the three texts need no
      quoting. */
  lemma PlainColumns(i: nat, e: SyncRow)
    ensures CsvEscape(NatToString(i + 1)) == NatToString(i + 1)
    ensures CsvEscape(YesNo(e.row.free)) == YesNo(e.row.free)
    ensures CsvEscape(YesNo(e.row.includeTwoE)) == YesNo(e.row.includeTwoE)
    ensures CsvEscape(YesNo(e.row.includeLab)) == YesNo(e.row.includeLab)
    ensures CsvEscape(YesNo(e.row.includeExtra)) == YesNo(e.row.includeExtra)
    ensures CsvEscape(SyncStatus(e.synced)) == SyncStatus(e.synced)
    ensures CsvEscape(FeeColumn(!e.row.free, e.row.amount)) == FeeColumn(!e.row.free, e.row.amount)
    ensures CsvEscape(FeeColumn(e.row.includeTwoE, e.row.twoE)) == FeeColumn(e.row.includeTwoE, e.row.twoE)
    ensures CsvEscape(FeeColumn(e.row.includeLab, e.row.lab)) == FeeColumn(e.row.includeLab, e.row.lab)
    ensures CsvEscape(FeeColumn(e.row.includeExtra, e.row.extra)) == FeeColumn(e.row.includeExtra, e.row.extra)
    ensures CsvEscape(TotalColumn(e.row)) == TotalColumn(e.row)
  {
    var r := e.row;
    NumeralNeedsNoQuoting(i + 1);
    assert IntToString(i + 1) == NatToString(i + 1);
    WordsNeedNoQuoting(r.free);
    WordsNeedNoQuoting(r.includeTwoE);
    WordsNeedNoQuoting(r.includeLab);
    WordsNeedNoQuoting(r.includeExtra);
    WordsNeedNoQuoting(e.synced);
    FeeColumnNeedsNoQuoting(!r.free, r.amount);
    FeeColumnNeedsNoQuoting(r.includeTwoE, r.twoE);
    FeeColumnNeedsNoQuoting(r.includeLab, r.lab);
    FeeColumnNeedsNoQuoting(r.includeExtra, r.extra);
    NumeralNeedsNoQuoting(ComputeRowTotal(r));
  }

  /** Escaping only the texts is escaping every field: the others never
      need it. */
  lemma RowFieldsEscaped(i: nat, e: SyncRow)
    ensures RowFields(i, e) == EscapeAll(RowValues(i, e))
  {
    var r := e.row;
    var v := RowValues(i, e);
    PlainColumns(i, e);
    EscapeListed(CsvEscape, NatToString(i + 1), r.name, r.review, YesNo(r.free), FeeColumn(!r.free, r.amount),
                 YesNo(r.includeTwoE), FeeColumn(r.includeTwoE, r.twoE),
                 YesNo(r.includeLab), FeeColumn(r.includeLab, r.lab), r.obs,
                 YesNo(r.includeExtra), FeeColumn(r.includeExtra, r.extra), TotalColumn(r), SyncStatus(e.synced));
    assert seq(|v|, k requires 0 <= k < |v| => CsvEscape(v[k])) == EscapeAll(v);
  }

  /** Each data line reads back, field by field, as the row's values:
      names, visit types and notes come back exactly, whatever they hold. */
  lemma DataLineReadsBack(i: nat, e: SyncRow)
    ensures ReadRecord(DataLine(i, e)) == Some(RowValues(i, e))
  {
    RowFieldsEscaped(i, e);
    RecordRoundTrip(RowValues(i, e));
  }

  /** A fee column reads back as the fee when it is switched on and is
      "0" when it is off. */
  lemma FeeColumnValue(on: bool, text: string)
    ensures ParseNum(FeeColumn(on, text)) == if on then ParseNum(text) else 0
    ensures !on ==> FeeColumn(on, text) == "0"
  {
    ParseFloatOrZeroIsParseNum(text);
    ParseNumOfString(if on then ParseFloatOrZero(text) else 0);
  }

  /** The numeric columns of data line `i` (see `RowValues`): the serial
      reads as `i + 1`, the row total column as the row's total, and the
      four fee columns add up to it. */
  lemma DataLineColumns(i: nat, e: SyncRow)
    ensures ParseNum(NatToString(i + 1)) == i + 1
    ensures ParseNum(TotalColumn(e.row)) == ComputeRowTotal(e.row)
    ensures ParseNum(FeeColumn(!e.row.free, e.row.amount)) + ParseNum(FeeColumn(e.row.includeTwoE, e.row.twoE))
          + ParseNum(FeeColumn(e.row.includeLab, e.row.lab)) + ParseNum(FeeColumn(e.row.includeExtra, e.row.extra))
         == ParseNum(TotalColumn(e.row))
  {
    var r := e.row;
    ParseNumOfNat(i + 1);
    FeeColumnValue(!r.free, r.amount);
    FeeColumnValue(r.includeTwoE, r.twoE);
    FeeColumnValue(r.includeLab, r.lab);
    FeeColumnValue(r.includeExtra, r.extra);
    ParseNumOfString(ComputeRowTotal(r));
  }

  lemma TotalPrefixParts()
    ensures TotalPrefix == "\"" + TotalLabel + "\","
    ensures '"' !in TotalLabel
  {
    forall k | 0 <= k < |TotalLabel| ensures TotalLabel[k] != '"' { }
  }

  /** A quoted label without quotes, a comma and a plain field read back
      as the two fields. */
  lemma QuotedPairReads(caption: string, n: string)
    requires '"' !in caption && CsvEscape(n) == n
    ensures ReadRecord("\"" + caption + "\"," + n) == Some([caption, n])
  {
    var t := "\"" + caption + "\"," + n;
    assert t == "\"" + (DoubleQuotes(caption) + "\"" + ("," + n));
    assert t[1..] == DoubleQuotes(caption) + "\"" + ("," + n);
    QuotedRead(caption, "," + n);
    assert ("," + n)[1..] == n;
    assert ReadField(t) == Some((caption, "," + n));
    EscapeRead(n, "");
    assert n + "" == n;
    assert ReadRecord(n) == Some([n]);
    assert [caption] + [n] == [caption, n];
  }

  /** The total line reads back as the label and the day's total. */
  lemma TotalLineReadsBack(total: int)
    ensures ReadRecord(TotalLine(total)) == Some([TotalLabel, IntToString(total)])
    ensures ParseNum(IntToString(total)) == total
  {
    TotalPrefixParts();
    NumeralNeedsNoQuoting(total);
    QuotedPairReads(TotalLabel, IntToString(total));
    ParseNumOfString(total);
  }
}
