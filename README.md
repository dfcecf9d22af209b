# OPD clinic ledger: a Dafny model

The clinic ledger is a single-page app. A receptionist keeps one list of
patient visits ("rows") per day. Each row holds:
- a name, a visit type and notes;
- a consultation fee, unless the visit is free;
- three optional fees, each behind an "include" flag.

The page shows the day's total, in rupees and in words (Indian grouping:
crore, lakh, thousand). It can export the day as CSV.

Rows live in the browser's storage under one key per day. Two hooks keep them:
- `useLocalStorage` works on storage only, under `clinic:records:<date>`.
- `useSupabaseSync` uses `opd:records:<date>` and also mirrors each named
  row to a remote `patient_records` table, with a `synced` flag per row.

This project models the following:
- the row total and fee parsing;
- both hooks, as Dafny classes whose `rows` sequence and `storage` map
  their methods update;
- the page's daily total and its "add sample patients" button;
- the CSV line building and escaping;
- the number-to-words converter.

It proves properties of each. Modules, one per file:

- `Strings` (strings.dfy), `Sequences` (sequences.dfy): `join`, `trim`,
  `String(n)`, `filter` and the map-where-id-matches transform.
- `Money` (money.dfy): `parseNum` and `parseFloat(x) || 0` on whole-rupee
  amounts.
- `Records` (records.dfy):
  - the row, a patch and the storage value (`Json(items)`, or text
    `JSON.parse` rejects);
  - `computeRowTotal`;
  - the update, remove and find transforms.
- `LocalStore` (local.dfy): the storage-only hook (`LocalLedger`).
- `SyncStore` (sync.dfy):
  - the remote-backed hook (`SyncLedger`);
  - the record it upserts and the mapping of loaded remote records.
- `Clinic` (app.dfy): the daily total and `addSamplePatients`.
- `CsvExport` (csv.dfy):
  - `csvEscape` and `exportCSV`;
  - a CSV field reader that serves as the escaping's partner: every
    escaped line reads back as its fields.
- `IndianWords` (words.dfy):
  - `numberToIndianWords`, with `twoDigits`, `threeDigits` and `convert`;
  - a reader of the words, used to prove that different amounts get
    different words.

Remote calls are not modelled as a server. What the remote side answers is
an input:
- the connection probe;
- the fetch of the day's rows (failure, or the records);
- the upsert outcome.

Each delete request the hook sends is an output. `crypto.randomUUID()` is
also an input (a fresh id parameter).

Behaviour of the code worth knowing, which the model reproduces:
- **Fee columns in the CSV.** Only the consultation-fee column is zeroed
  for a free visit. The other fee columns follow their include flags only.
- **CSV total line.** It holds the label and the total, not the total in words.
- **Remote delete failures.** Deletes in `removeRow` and `clearDay` are only
  logged. They never set the error.
- **`updateRow` sync.** It syncs the first row with the id, when its name is
  not blank after a trim. It marks rows synced on success without any
  staleness guard.
- **`loadTodayRecords`.**
  - An empty stored list is treated like a missing one: one fresh row,
    saved, with `synced` true.
  - A stored value that `JSON.parse` rejects gives one fresh row with
    `synced` true, the error "Failed to load records", and nothing saved.
- **Empty lists in `useLocalStorage`.** A stored empty list loads as an
  empty ledger.
- **Storage keys.** The two hooks use different storage prefixes.

## Model

| member | source | states |
|---|---|---|
| Money.ParseNumBlank | src/hooks/useSupabaseSync.ts:27-33 | empty and white-space-only fee text reads as 0 |
| Money.ParseNumNoDigits | src/hooks/useSupabaseSync.ts:27-33 | fee text with no digit at all (such as "abc") reads as 0, never an error |
| Money.ParseNumNonNegative | src/hooks/useSupabaseSync.ts:27-33 | fee text without a minus sign never reads as a negative amount |
| Money.ParseNumOfString | src/hooks/useSupabaseSync.ts:27-33 | `parseNum(String(k)) == k` for every whole amount, negative ones included |
| Money.ParseNumOfThreeDigits | src/hooks/useSupabaseSync.ts:27-33 | a three-digit numeral without a leading zero, such as the sample fees, reads as its value |
| Money.ParseFloatOrZeroIsParseNum | src/App.tsx:202-209 | the export's `parseFloat(x) \|\| 0` and the hooks' `parseNum` agree on every text |
| Money.ParseNum | src/hooks/useSupabaseSync.ts:27-33 | definition: the text is trimmed; empty text is 0; otherwise the sign and leading digits are read, with 0 when none are there; the same function is at useLocalStorage.ts:22-28 |
| Money.ParseFloatOrZero | src/App.tsx:202-209 | definition: the export's `parseFloat(x) \|\| 0`, leading white space skipped, then an optional sign and the leading digits, 0 when none are there |
| Strings.Trim | src/hooks/useSupabaseSync.ts:29 | definition: JavaScript's `trim`, white space removed from both ends |
| Strings.IntToString | src/App.tsx:198-211 | definition: `String` of an integer, a minus sign before the decimal digits of a negative one |
| Records.ApplyPatch | src/hooks/useLocalStorage.ts:120 | definition: `{ ...row, ...patch }`, each field the patch sets replaces the row's, the others are kept |
| Records.ComputeRowTotal | src/hooks/useSupabaseSync.ts:35-41 | definition: the amount unless the visit is free, plus each fee whose include flag is on, each read with `ParseNum`; the same function is at useLocalStorage.ts:30-36 |
| Records.RemoveRowsSingle | src/hooks/useLocalStorage.ts:129 | one row survives removal exactly when its id differs; with `RemoveRowsAppend` this fixes every result, no survivor repeated |
| Records.RemoveEntriesSingle | src/hooks/useSupabaseSync.ts:281 | one row survives removal exactly when its id differs; with `RemoveEntriesAppend` this fixes every result, no survivor repeated |
| Records.FreeRowWithoutFeesIsZero | src/hooks/useSupabaseSync.ts:35-41 | a free visit with every include flag off totals 0, whatever its fee texts |
| Records.EmptyRowIsZero | src/hooks/useSupabaseSync.ts:171-186 | a new row totals 0 |
| Records.RowTotalNonNegative | src/hooks/useSupabaseSync.ts:35-41 | with no minus sign in any fee text the row total is not negative |
| Records.RowTotalIgnoresGatedText | src/hooks/useSupabaseSync.ts:35-41 | changing the text of a switched-off fee (or of the amount of a free visit) leaves the total unchanged |
| Records.RowTotalExample | src/hooks/useSupabaseSync.ts:35-41 | 500 plus an included 200 totals 700 |
| Records.RowTotalUnreadableExample | src/hooks/useSupabaseSync.ts:35-41 | a free visit (amount "999") with an included "abc" fee totals 0 |
| Records.ApplyNoChange | src/hooks/useLocalStorage.ts:119-121 | a patch that sets no field leaves the row as it is |
| Records.UpdateRows | src/hooks/useLocalStorage.ts:117-125 | same length; the rows with that id get the patch, every other row is unchanged; an absent id changes nothing |
| Records.RemoveRows | src/hooks/useLocalStorage.ts:127-133 | the result holds exactly the rows whose id differs; an absent id changes nothing |
| Records.RemoveRowsAppend | src/hooks/useLocalStorage.ts:129 | removal keeps the surviving rows in their order |
| Records.UpdateEntries | src/hooks/useSupabaseSync.ts:202-209 | the rows with that id get the patch and become unsynced, every other row is unchanged; an absent id changes nothing |
| Records.MarkSynced | src/hooks/useSupabaseSync.ts:258-260 | the rows with that id become synced, with no other flag or field changed |
| Records.RemoveEntries | src/hooks/useSupabaseSync.ts:280-281 | the result holds exactly the rows whose id differs; an absent id changes nothing |
| Records.RemoveEntriesAppend | src/hooks/useSupabaseSync.ts:281 | removal keeps the surviving rows in their order |
| Records.FindEntry | src/hooks/useSupabaseSync.ts:218 | none exactly when no row has the id; otherwise the first row with it |
| LocalStore.LocalKey | src/hooks/useLocalStorage.ts:39 | the key is `clinic:records:` followed by the date |
| LocalStore.LocalKeyInjective | src/hooks/useLocalStorage.ts:39 | two dates share a key exactly when they are equal |
| LocalStore.LocalLedger.constructor | src/hooks/useLocalStorage.ts:18-20 | no rows, loading |
| LocalStore.LocalLedger.Save | src/hooks/useLocalStorage.ts:38-41 | only this day's key is written, with the given rows |
| LocalStore.LocalLedger.LoadFromStorage | src/hooks/useLocalStorage.ts:43-92 | stored rows are shown as stored; a missing key gives one fresh row, saved; unparsable text gives one fresh row, unsaved; loading ends false |
| LocalStore.LocalLedger.AddRow | src/hooks/useLocalStorage.ts:94-115 | one fresh row at the end; storage holds the new rows |
| LocalStore.LocalLedger.UpdateRow | src/hooks/useLocalStorage.ts:117-125 | rows become `UpdateRows` of the old rows; storage holds them |
| LocalStore.LocalLedger.RemoveRow | src/hooks/useLocalStorage.ts:127-133 | rows become `RemoveRows` of the old rows; storage holds them |
| LocalStore.LocalLedger.ClearDay | src/hooks/useLocalStorage.ts:135-153 | exactly one fresh row, saved |
| LocalStore.Reopen | src/hooks/useLocalStorage.ts:38-51 | the save/load round trip: a ledger opened on saved storage shows the same rows |
| LocalStore.OtherDaysUntouched | src/hooks/useLocalStorage.ts:38-41 | saving one day never changes another day's stored rows |
| SyncStore.SyncKey | src/hooks/useSupabaseSync.ts:70 | the key is `opd:records:` followed by the date |
| SyncStore.ToRemote | src/hooks/useSupabaseSync.ts:232-247 | the upserted total is the row total and the sum of the four sent fees; switched-off fees are sent as 0; id, date and name are copied |
| SyncStore.FromRemoteAll | src/hooks/useSupabaseSync.ts:95-109 | one row per loaded record, in order, each marked synced |
| SyncStore.MarkLoaded | src/hooks/useSupabaseSync.ts:142 | fields unchanged; `synced` is set when connected and kept otherwise |
| SyncStore.LoadedRowTotal | src/hooks/useSupabaseSync.ts:95-109 | a record this hook wrote loads as a row whose total is the record's total |
| SyncStore.RemoteRoundTrip | src/hooks/useSupabaseSync.ts:95-109 | uploading a row and loading it back keeps its id, texts, flags and total |
| SyncStore.RecordRoundTrip | src/hooks/useSupabaseSync.ts:232-247 | loading a record this hook wrote and uploading it again sends the same record |
| SyncStore.SyncLedger.constructor | src/hooks/useSupabaseSync.ts:20-25 | no rows, loading, not syncing, no error |
| SyncStore.SyncLedger.LoadTodayRecords | src/hooks/useSupabaseSync.ts:61-169 | all branches: unparsable storage, remote rows win and are saved, a failed fetch sets its error and falls back; an empty local list gives one fresh saved row; rows are never empty; storage mirrors the rows unless unparsable |
| SyncStore.SyncLedger.AddRow | src/hooks/useSupabaseSync.ts:171-196 | one fresh unsynced row at the end; storage holds the new rows |
| SyncStore.SyncLedger.SyncToSupabase | src/hooks/useSupabaseSync.ts:225-268 | nothing without a client or for a blank name; otherwise the `ToRemote` record is sent, success marks the rows with that id synced, failure sets the error and leaves rows alone |
| SyncStore.SyncLedger.Upsert | src/hooks/useSupabaseSync.ts:228-267 | syncing ends false; success marks synced, failure sets "Failed to sync to cloud database" |
| SyncStore.FromRemote | src/hooks/useSupabaseSync.ts:95-109 | definition: a remote record as a row, fees written back with `String`, marked synced |
| SyncStore.SyncLedger.Upload | src/hooks/useSupabaseSync.ts:216-226 | definition: the record sent for an id, the `ToRemote` record of the first row with that id when there is a client and the row's trimmed name is not empty, otherwise nothing |
| SyncStore.SyncLedger.UploadCases | src/hooks/useSupabaseSync.ts:217-226 | a record is sent exactly when there is a client and the first row with that id has a name that is not empty after a trim; it carries that id and name |
| SyncStore.SyncLedger.UpdateRow | src/hooks/useSupabaseSync.ts:198-223 | storage holds the patched rows; the first row with the id is sent when `Upload` says so; rows and error follow the upsert outcome; `syncing` is false after a record is sent and unchanged otherwise; storage mirrors the rows |
| SyncStore.SyncLedger.SyncShown | src/hooks/useSupabaseSync.ts:216-219 | the record sent is `Upload` of the shown rows; rows and error follow the upsert outcome; `syncing` is false after a record is sent and unchanged otherwise |
| SyncStore.SyncLedger.RemoveRow | src/hooks/useSupabaseSync.ts:269-288 | a delete by id is sent when there is a client; rows become `RemoveEntries` of the old rows; storage holds them |
| SyncStore.SyncLedger.ClearDay | src/hooks/useSupabaseSync.ts:290-325 | a delete of the whole day is sent when there is a client; exactly one fresh unsynced row, saved |
| Clinic.DailyTotal | src/App.tsx:149 | definition: the sum of `ComputeRowTotal` over the rows |
| Clinic.DailyTotalAppend | src/App.tsx:149 | the total of two lists one after the other is the sum of their totals |
| Clinic.DailyTotalOfPlain | src/App.tsx:149 | the day's total depends on the rows' fields only, never on `synced` |
| Clinic.SyncKeepsTotal | src/App.tsx:149 | a confirmed upsert and a reload leave the day's total unchanged |
| Clinic.AddRowKeepsTotal | src/App.tsx:149 | adding a row leaves the day's total unchanged |
| Clinic.DailyTotalNonNegative | src/App.tsx:149 | with no minus sign in any fee text the day's total is not negative |
| Clinic.ZeroRowsTotal | src/App.tsx:149 | rows that each total 0 give a day's total of 0 |
| Clinic.SamplesAreNamed | src/App.tsx:153-169 | fifteen sample visits, each with a patient name |
| Clinic.AddSamplePatients | src/App.tsx:152-174 | as written: the rows gain fifteen fresh empty rows, saved |
| Clinic.SampleRowsAreBlank | src/App.tsx:171-173 | as written, the button adds nothing to the day's total |
| Clinic.SampleRow | src/App.tsx:153-169 | a sample visit with the given id keeps its patient name |
| Clinic.AddSamplePatientsFilled | src/App.tsx:152-174 | corrected: the rows gain the fifteen sample visits, each with its fresh id, saved |
| Clinic.PrefixTotal | src/App.tsx:149 | definition: the sum of `ComputeRowTotal` over the first `k` rows of a list |
| Clinic.WithIds | src/App.tsx:152-174 | definition: the first `k` rows of a list, each given its fresh id, as unsynced rows |
| Clinic.FreshRowsTotal | src/App.tsx:149 | giving rows fresh ids leaves their day's total as it was: the id never enters a row's total |
| Clinic.SampleSumValue | src/App.tsx:153-169 | the fifteen sample visits' fees, as `computeRowTotal` reads them, add up to 10210 rupees |
| Clinic.SampleRowsTotal | src/App.tsx:152-174 | corrected: the fifteen added rows total 10210 rupees, whatever ids they get |
| Clinic.SampleRowsAreFilled | src/App.tsx:152-174 | corrected: the added rows carry the sample names, total 10210 rupees and raise the day's total by exactly that |
| CsvExport.DoubleQuotes | src/App.tsx:318 | never shorter than the input; text without quotes is unchanged |
| CsvExport.CsvEscape | src/App.tsx:315-320 | definition: a field with a quote, comma or line feed is wrapped in quotes with its quotes doubled; any other field is kept as it is |
| CsvExport.HeaderLine | src/App.tsx:177-194 | definition: the fourteen column headers joined by commas |
| CsvExport.DataLine | src/App.tsx:195-213 | definition: the row's fourteen values, the three texts escaped, joined by commas |
| CsvExport.TotalLine | src/App.tsx:216 | definition: the quoted label, a comma and `String` of the day's total |
| CsvExport.CsvEscapeCases | src/App.tsx:315-320 | a field stays as it is exactly when it holds no quote, comma or line feed; otherwise it is quoted with its quotes doubled |
| CsvExport.CarriageReturnNotQuoted | src/App.tsx:317 | a lone carriage return does not cause quoting |
| CsvExport.QuotedRead | src/App.tsx:318-319 | doubled quotes followed by a closing quote read back as the original text |
| CsvExport.PlainRead | src/App.tsx:319 | unquoted text without a comma or line feed reads back as itself |
| CsvExport.EscapeRead | src/App.tsx:315-320 | every escaped field, followed by a comma, a line feed or the end, reads back as the field |
| CsvExport.RecordRoundTrip | src/App.tsx:213 | a line of escaped fields joined by commas reads back as the fields |
| CsvExport.RowValues | src/App.tsx:197-212 | a data line has fourteen columns |
| CsvExport.DataLines | src/App.tsx:195-214 | one line per row, numbered from 1 |
| CsvExport.CsvLines | src/App.tsx:193-216 | the header line, one line per row, an empty line and the total line of the day's total |
| CsvExport.ExportCsv | src/App.tsx:176-217 | the content is the lines `CsvLines` gives, joined by line feeds |
| CsvExport.NumeralNeedsNoQuoting | src/App.tsx:198 | a number written with `String` is never quoted |
| CsvExport.PlainColumns | src/App.tsx:197-212 | the serial, flags, fees, total and status columns are never quoted |
| CsvExport.RowFieldsEscaped | src/App.tsx:197-212 | escaping only the three text fields is escaping every field |
| CsvExport.DataLineReadsBack | src/App.tsx:195-213 | every data line reads back as the row's fourteen values, texts exactly as entered |
| CsvExport.FeeColumnValue | src/App.tsx:202-209 | a fee column reads back as the fee when switched on and is "0" when off |
| CsvExport.DataLineColumns | src/App.tsx:196-210 | the serial reads as its position, the total column as the row total, and the four fee columns add up to it |
| CsvExport.TotalLineReadsBack | src/App.tsx:216 | the last line reads back as the label and the day's total |
| IndianWords.Split | src/App.tsx:90-97 | the crore, lakh, thousand and rest groups recombine to the amount, within their bounds |
| IndianWords.SplitUnique | src/App.tsx:90-97 | the grouping is the only one with those bounds |
| IndianWords.TwoDigits | src/App.tsx:75-80 | the text is the words of 0..99 joined by spaces |
| IndianWords.ThreeDigits | src/App.tsx:82-86 | the text is the hundreds words and the two-digit words joined by spaces |
| IndianWords.TwoDigitWordsShape | src/App.tsx:75-80 | no empty word; no words exactly for 0 |
| IndianWords.ThreeDigitWordsShape | src/App.tsx:82-86 | no empty word; no words exactly for 0 |
| IndianWords.Convert | src/App.tsx:88-104 | the text is the amount's words joined by single spaces |
| IndianWords.NumberToIndianWords | src/App.tsx:106-113 | the text is the amount's words joined by single spaces and ends in " Only" |
| IndianWords.NumberWordsNonEmpty | src/App.tsx:88-104 | a nonzero amount has words |
| IndianWords.GroupWordsPresent | src/App.tsx:99-101 | "Crore", "Lakh" and "Thousand" appear exactly when their group is nonzero |
| IndianWords.NumberVocabulary | src/App.tsx:88-104 | no word other than table words, units and "Zero" appears in an amount's words |
| IndianWords.PaiseClause | src/App.tsx:110-112 | "and" and "Paise" appear exactly when there are paise |
| IndianWords.ZeroAmount | src/App.tsx:109-113 | 0 rupees and 0 paise is "Zero Rupees Only" |
| IndianWords.ElevenLakhFiftyThousand | src/App.tsx:106-113 | 11,50,000 is "Rupees Eleven Lakh Fifty Thousand Only" |
| IndianWords.NumberWordsValue | src/App.tsx:88-104 | the words of every amount read back as that amount |
| IndianWords.NumberWordsInjective | src/App.tsx:88-104 | different amounts are written with different words |

## Left out

- Rendering, form widgets, toasts, dialogs and the checkbox component are
  not modelled. They hold no ledger logic.
- The XLSX export, the Blob and download steps, `formatINR` and the date
  helpers are not modelled. They are library calls or display formatting.
- The remote table, the network and logging are replaced by inputs and
  outputs:
  - the connection probe and the day's fetch are inputs;
  - the upsert outcome is an input;
  - deletes are returned requests.
- Asynchrony is not modelled. Every operation runs to completion in one
  step. Because of this a late upsert success cannot arrive after a newer
  edit, so the model never sets `synced` on a row edited after its
  upsert was sent, as the code can.
- `crypto.randomUUID()` is not modelled. A fresh id is a parameter, and
  nothing assumes ids are unique.
- JSON encoding is not modelled. Storage is a map from key to a row list
  or to text `JSON.parse` rejects. Two stored values it cannot express:
  - JSON that is not an array, such as `null`;
  - the empty string, which the code treats as a missing key.
- The `csvEscape` null check and the `|| ''` / `|| 0` / `|| false`
  defaults for null remote fields are not modelled. No text or field is
  ever null in the model.
- Money.ParseNum: reads an optional sign and the leading decimal digits
  as an exact integer, because amounts here are whole rupees. What a
  64-bit float does differently is not modelled:
  - fractions and exponents are dropped ("12.5" reads as 12, "1e3" as 1);
  - a run of about 309 or more digits overflows to `Infinity` in the
    code, which `Number.isFinite` turns into 0; the model returns the
    whole integer;
  - digits beyond 2^53 lose precision in the code, but not in the model;
  - fee sums are exact integer additions, not float additions.
- Money.ParseFloatOrZero: for the same reason, the ways the code's
  `parseFloat(x) || 0` yields an infinity are not modelled: the texts
  "Infinity" and "-Infinity" and a digit run that overflows. `|| 0` keeps
  either infinity and the export writes it out. The model reads 0 and the whole integer, so
  `Money.ParseFloatOrZeroIsParseNum` holds in the model but not on those
  texts in the code.
- Strings.IntToString: writes every decimal digit. The code's `String(n)`
  writes a number of 10^21 or more in exponent form, such as "1e+21".
  Amounts that large reach the CSV amount and total columns and the fee
  texts that `FromRemote` builds; the model writes them digit by digit.
- Storage writes always succeed. In the code, `localStorage.setItem` can
  throw when the quota is full. At src/hooks/useSupabaseSync.ts:113 or
  :139 that sends `loadTodayRecords` into its error handling; inside a
  `setRows` updater it throws out of the update. The model has neither
  path.
- IndianWords.NumberToIndianWords: takes the rupees and the paise already
  split. The floating-point `Math.floor`/`Math.round` step is not modelled.
  - It requires rupees below 20,000,000,000 so that the crore group stays
    below 2000; above that the code reads past the word table.
  - It requires paise below 100; rounding can produce 100.
  - Negative amounts are not modelled.
- CsvExport.CsvEscapeCases: follows the code, so the quoting differs from
  section 2 of RFC 4180 in two ways. A carriage return alone is not
  quoted, and lines end with a line feed, not CRLF.
- The exported total line carries `DailyTotal` of the rows passed in. The
  memoised `dailyTotal` of the page is assumed to be current.

## Findings

| source | as written | input that shows it | evidently intended | confidence | as-written member | corrected member |
|---|---|---|---|---|---|---|
| src/App.tsx:152-174 | `samplePatients.forEach(() => addRow())` ignores each sample and adds fifteen empty rows | any day's ledger: after the button every added row is an empty row and the day's total is unchanged | one row per sample visit, filled with that visit's name, visit type, fees and notes, which raises the day's total by 10210 rupees | not executed; high, the fifteen sample visits are never read | Clinic.AddSamplePatients, Clinic.SampleRowsAreBlank | Clinic.AddSamplePatientsFilled, Clinic.SampleRowsAreFilled |
