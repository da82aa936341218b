# Single-value formatter, modelled in Dafny

A model of the embulk `single_value` formatter plugin. The plugin picks one
column of the input schema, by name or else the first. It writes that
column's cell of every record as one line of text to a `LineEncoder`.

- A null of any type becomes the configured null string, verbatim. The default null string is empty.
- A boolean becomes `true` or `false`.
- A long becomes its signed decimal text.
- A string is written unchanged.
- Doubles, timestamps and JSON values go to library formatters.

Modules:

- `Wrappers` (`wrappers.dfy`): `Option` and `Result`.
- `Decimal` (`decimal.dfy`): `Long.toString` as `LongToDecimal`, and a reference reader `ParseDecimal`. The text reads back as the same number. Every canonical decimal text is the text of exactly one number.
- `Spi` (`spi.dfy`): column types, columns, schemas, cell values and records, plus `Schema.lookupColumn` (first column with that exact name).
- `LineEncoding` (`line_encoder.dfy`): the encoder as a log of the calls made on it (`NextFile`, `AddText`, `AddNewLine`, `Finish`, `Close`). The log carries a lifecycle phase (`Idle → Opened → Finished → Closed`). `Replay` accepts exactly the call orders that lifecycle allows. `Lines` reads the logical lines back out of a log.
- `SingleValueFormatter` (`single_value_formatter.dfy`):
  - `getInputColumnIndex` and `getOutputSchema`.
  - The setup part of `open` (`Setup`).
  - The column visitor (`Stringify`).
  - The calls `add` makes (`Emit`).
  - The anonymous `PageOutput` as the class `SingleValuePageOutput`. Its loop in `Add` appends to the encoder.
  - `open` itself (`Open`).

The class invariant ties the encoder's log to the records added so far. The log is always
`[NextFile] + Emit(plan, records)`, followed by `Finish` and/or `Close` once they happen.
Together with `OutputLines`, this gives the main result: the logical lines written are exactly
one per record, in record order. Each line is that record's selected cell rendered as text.
A logical line is the text between two `addNewLine` calls. A string cell that itself contains a
line break is still written verbatim, so it spans more than one physical line of the file.

Two facts about where things happen in the source:

- `open` resolves the column once per output, at
  src/main/java/org/embulk/formatter/single_value/SingleValueFormatterPlugin.java:84.
  `transaction` (lines 52-58) only loads the configuration.
- An unknown column name is the exception `Schema.lookupColumn` throws. The model returns
  `Err(ColumnNotFound(name))` instead.

## Model

| member | source | states |
|---|---|---|
| `Decimal.NatToDigits` | src/main/java/org/embulk/formatter/single_value/SingleValueFormatterPlugin.java:114 | the digits of a magnitude are non-empty and all decimal digits, with no leading zero; the first digit is '0' exactly for zero |
| `Decimal.LongToDecimal` | src/main/java/org/embulk/formatter/single_value/SingleValueFormatterPlugin.java:114 | Long.toString text starts with '-' exactly for negatives; after the sign come digits only, with no leading zero and no "-0" |
| `Decimal.DigitsRoundTrip` | src/main/java/org/embulk/formatter/single_value/SingleValueFormatterPlugin.java:114 | reading back the digits of n gives n |
| `Decimal.DigitsCanonical` | src/main/java/org/embulk/formatter/single_value/SingleValueFormatterPlugin.java:114 | a digit string with no leading zero is the digit string of its own value |
| `Decimal.ParseLongToDecimal` | src/main/java/org/embulk/formatter/single_value/SingleValueFormatterPlugin.java:114 | for every 64-bit long, parsing the text Long.toString writes gives back that long |
| `Decimal.CanonicalIsLongToDecimal` | src/main/java/org/embulk/formatter/single_value/SingleValueFormatterPlugin.java:114 | the written text is canonical; any canonical text that parses to n is exactly the text written for n, so the form is unique |
| `Spi.FindPosition` | src/main/java/org/embulk/formatter/single_value/SingleValueFormatterPlugin.java:63 | finds a position iff some column at or after `from` has the name; the position found has that name and no earlier one does |
| `Spi.LookupColumn` | src/main/java/org/embulk/formatter/single_value/SingleValueFormatterPlugin.java:63 | finds a column iff one has exactly that name; in a schema numbered by position, it is the first such column and its index is its position |
| `LineEncoding.ReplayOrder` | src/main/java/org/embulk/formatter/single_value/SingleValueFormatterPlugin.java:91-185 | in any call order the encoder lifecycle accepts: NextFile comes only first; every write follows it; no write follows Finish or Close; Close is last |
| `LineEncoding.LineEncoder.constructor` | src/main/java/org/embulk/formatter/single_value/SingleValueFormatterPlugin.java:81 | a new encoder is Idle and has received no calls |
| `LineEncoding.LineEncoder.NextFile` | src/main/java/org/embulk/formatter/single_value/SingleValueFormatterPlugin.java:91 | opens the file: Idle to Opened, recording the call |
| `LineEncoding.LineEncoder.AddText` | src/main/java/org/embulk/formatter/single_value/SingleValueFormatterPlugin.java:163-171 | only while Opened; appends exactly the given text to the log |
| `LineEncoding.LineEncoder.AddNewLine` | src/main/java/org/embulk/formatter/single_value/SingleValueFormatterPlugin.java:173 | only while Opened; appends one line break to the log |
| `LineEncoding.LineEncoder.Finish` | src/main/java/org/embulk/formatter/single_value/SingleValueFormatterPlugin.java:177-180 | only while Opened; moves to Finished, after which the encoder accepts no more text |
| `LineEncoding.LineEncoder.Close` | src/main/java/org/embulk/formatter/single_value/SingleValueFormatterPlugin.java:182-185 | from any phase but Closed, finished or not; moves to Closed |
| `SingleValueFormatter.LoadTask` | src/main/java/org/embulk/formatter/single_value/SingleValueFormatterPlugin.java:34-48 | options left out take their defaults: no column name, the empty null string, UTC and "%Y-%m-%d %H:%M:%S.%6N %z"; every given option (column name, null string, timezone, timestamp format) is kept as given |
| `SingleValueFormatter.InputColumnIndex` | src/main/java/org/embulk/formatter/single_value/SingleValueFormatterPlugin.java:60-66 | no name gives index 0; a name succeeds iff a column has exactly that name, giving the first such column's position; otherwise ColumnNotFound |
| `SingleValueFormatter.OutputSchema` | src/main/java/org/embulk/formatter/single_value/SingleValueFormatterPlugin.java:68-74 | succeeds iff the index is in range, and then is the one-column schema holding the input column at that index |
| `SingleValueFormatter.Setup` | src/main/java/org/embulk/formatter/single_value/SingleValueFormatterPlugin.java:80-88 | succeeds iff (no name and a non-empty schema) or the name is a column; the resolved index is then a valid position, and for a name it is the first column with exactly that name; the output schema is that column, the null string is the configured one, and timestamps are rendered with the configured pattern and zone |
| `SingleValueFormatter.Stringify` | src/main/java/org/embulk/formatter/single_value/SingleValueFormatterPlugin.java:101-171 | null of any type gives the null string; a boolean gives "true"/"false" matching its value; a long gives canonical decimal text that parses back to it, with '-' iff negative; a string is unchanged; a double, timestamp or JSON value gives exactly what its library formatter returns |
| `SingleValueFormatter.Emit` | src/main/java/org/embulk/formatter/single_value/SingleValueFormatterPlugin.java:99-174 | the calls for n records are 2n writes: text and line breaks only |
| `SingleValueFormatter.EmitAt` | src/main/java/org/embulk/formatter/single_value/SingleValueFormatterPlugin.java:99-174 | record i's text is call 2i and a line break is call 2i+1, so writes follow record order |
| `SingleValueFormatter.EmitAppend` | src/main/java/org/embulk/formatter/single_value/SingleValueFormatterPlugin.java:96-99 | adding records page by page emits the same calls as adding them all together |
| `SingleValueFormatter.EmitOneMore` | src/main/java/org/embulk/formatter/single_value/SingleValueFormatterPlugin.java:99-174 | one more record appends its text and one line break after everything emitted before |
| `SingleValueFormatter.LinesOfEmit` | src/main/java/org/embulk/formatter/single_value/SingleValueFormatterPlugin.java:99-174 | the lines read back from the emitted calls are the records' lines, one per record in order |
| `SingleValueFormatter.NoLinesWithoutNewLine` | src/main/java/org/embulk/formatter/single_value/SingleValueFormatterPlugin.java:177-185 | calls with no line break (finish, close) add no line |
| `SingleValueFormatter.OutputLines` | src/main/java/org/embulk/formatter/single_value/SingleValueFormatterPlugin.java:91-185 | a run's whole call log, from NextFile to Finish/Close, holds exactly one line per record, in record order |
| `SingleValueFormatter.EmitSelectedCellOnly` | src/main/java/org/embulk/formatter/single_value/SingleValueFormatterPlugin.java:100-171 | two record sequences that agree on the selected cell emit identical calls; no other column affects the output |
| `SingleValueFormatter.SelectionExamples` | src/main/java/org/embulk/formatter/single_value/SingleValueFormatterPlugin.java:60-74 | for columns a, b, c: "b" selects index 1 with output schema [b]; no name selects index 0; "z" fails with ColumnNotFound |
| `SingleValueFormatter.StringifyExamples` | src/main/java/org/embulk/formatter/single_value/SingleValueFormatterPlugin.java:104-134 | -42 renders "-42", 0 renders "0", false renders "false", a null renders the null string |
| `SingleValueFormatter.SingleValuePageOutput.constructor` | src/main/java/org/embulk/formatter/single_value/SingleValueFormatterPlugin.java:93-94 | the PageOutput starts over an encoder whose only call so far is NextFile, with no record added |
| `SingleValueFormatter.SingleValuePageOutput.AddRecord` | src/main/java/org/embulk/formatter/single_value/SingleValueFormatterPlugin.java:100-173 | for one record: exactly one text, the record's line, then exactly one line break; the class invariant is kept |
| `SingleValueFormatter.SingleValuePageOutput.Add` | src/main/java/org/embulk/formatter/single_value/SingleValueFormatterPlugin.java:96-175 | appends Emit of the page to the log; the lines written so far are exactly the lines of all records added, in order |
| `SingleValueFormatter.SingleValuePageOutput.Finish` | src/main/java/org/embulk/formatter/single_value/SingleValueFormatterPlugin.java:177-180 | forwards finish to the encoder; records unchanged; the encoder accepts no further text |
| `SingleValueFormatter.SingleValuePageOutput.Close` | src/main/java/org/embulk/formatter/single_value/SingleValueFormatterPlugin.java:182-185 | forwards close to the encoder, finished or not; the written lines are still one per record in order |
| `SingleValueFormatter.Open` | src/main/java/org/embulk/formatter/single_value/SingleValueFormatterPlugin.java:77-93 | creates the encoder first; fails exactly when Setup fails, with the same error, before NextFile, so the encoder has received no call; otherwise calls NextFile once and returns a fresh output over that encoder with the setup's plan, before any record |

## Left out

- Double.toString, the strftime-style TimestampFormatter and msgpack's `Value.toJson` are library code. They are the function-valued parameters of `Foreign`. The model states only that their output is written unchanged.
- `DateTimeZone.forID` and the TimestampFormatter constructor can fail on an invalid zone or pattern. That failure belongs to those libraries and is not modelled.
- `Schema.lookupColumn` and `Schema.getColumn` are host-library code, modelled as the first column with that exact name, and as positional access. Their exceptions become `ColumnNotFound` and `ColumnIndexOutOfRange`.
- PageReader page decoding is not modelled. A page is a `seq<Record>` whose records conform to the input schema, which the host guarantees.
- LineEncoder internals are not modelled: charset, newline style, compression, and the `FileOutput` I/O with its failures.
- LineEncoding.LineEncoder.NextFile: the encoder is opened once from Idle. File rotation by repeated `nextFile` calls is not modelled, because the plugin calls it once.
- LineEncoding.LineEncoder.Close: a second close is not modelled, because the host closes each output once.
- `transaction` and the configuration framework are not modelled. `LoadTask` models only how an option is filled in: its default when absent, the given value otherwise.
- Decimal.ParseDecimal: a reference reader of ASCII digits only, with no 64-bit range check. It is used only to read back text written for a `Long`.
- Concurrency is not modelled. Parallel runs share no state.
