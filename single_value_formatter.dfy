/**
 * The single-value formatter: it selects one column of the input schema,
 * renders that column's cell of every record as text, and writes the text
 * of each record as one line to a LineEncoder.
 */
module SingleValueFormatter {

  import opened Wrappers
  import opened Decimal
  import opened Spi
  import opened LineEncoding

  const DefaultNullString: string := ""
  const DefaultTimezone: string := "UTC"
  const DefaultTimestampFormat: string := "%Y-%m-%d %H:%M:%S.%6N %z"

  /**
   * Library code the formatter hands values to and whose output it writes
   * unchanged: the strftime-style TimestampFormatter (pattern, zone id,
   * instant), Double.toString, and msgpack's Value.toJson.
   */
  datatype Foreign = Foreign(
    formatTimestamp: (string, string, Timestamp) -> string,
    doubleToString: Double -> string,
    toJson: Json -> string)

  /** The plugin's configuration after loading. */
  datatype Task = Task(columnName: Option<string>, nullString: string, timezone: string, timestampFormat: string)

  /** Why a run cannot start. */
  datatype SetupError =
    | ColumnNotFound(name: string)
    | ColumnIndexOutOfRange(index: nat)

  /** The renderers of the three value kinds that are left to library code, fixed for a run. */
  datatype Render = Render(timestamp: Timestamp -> string, double: Double -> string, json: Json -> string)

  /** What `open` resolves once per run and every record then uses. */
  datatype Plan = Plan(inputColumnIndex: nat, outputSchema: Schema, nullString: string, render: Render)

  /** Loads the task, filling every option left out with its default. */
  function LoadTask(columnName: Option<string>, nullString: Option<string>,
                    timezone: Option<string>, timestampFormat: Option<string>): (t: Task)
    ensures t.columnName == columnName
    ensures nullString.None? ==> t.nullString == DefaultNullString == ""
    ensures nullString.Some? ==> t.nullString == nullString.value
    ensures timezone.None? ==> t.timezone == DefaultTimezone
    ensures timezone.Some? ==> t.timezone == timezone.value
    ensures timestampFormat.None? ==> t.timestampFormat == DefaultTimestampFormat
    ensures timestampFormat.Some? ==> t.timestampFormat == timestampFormat.value
  {
    Task(columnName,
      match nullString case Some(s) => s case None => DefaultNullString,
      match timezone case Some(z) => z case None => DefaultTimezone,
      match timestampFormat case Some(f) => f case None => DefaultTimestampFormat)
  }

  /** getInputColumnIndex: the named column's index, or 0 when no name is configured. */
  function InputColumnIndex(columnName: Option<string>, inputSchema: Schema): (r: Result<nat, SetupError>)
    ensures columnName.None? ==> r == Ok(0)
    ensures columnName.Some? ==>
      (r.Ok? <==> exists i :: 0 <= i < |inputSchema| && inputSchema[i].name == columnName.value)
    ensures columnName.Some? && r.Err? ==> r.error == ColumnNotFound(columnName.value)
    ensures columnName.Some? && r.Ok? && WellFormed(inputSchema) ==>
      r.value < |inputSchema| && inputSchema[r.value].name == columnName.value
    ensures columnName.Some? && r.Ok? && WellFormed(inputSchema) ==>
      forall j :: 0 <= j < r.value ==> inputSchema[j].name != columnName.value
  {
    match columnName
    case None => Ok(0)
    case Some(name) =>
      match LookupColumn(inputSchema, name)
      case None => Err(ColumnNotFound(name))
      case Some(column) => Ok(column.index)
  }

  /** getOutputSchema: a schema of the one input column at `inputColumnIndex`. */
  function OutputSchema(inputColumnIndex: nat, inputSchema: Schema): (r: Result<Schema, SetupError>)
    ensures r.Ok? <==> inputColumnIndex < |inputSchema|
    ensures r.Ok? ==> |r.value| == 1 && r.value[0] == inputSchema[inputColumnIndex]
    ensures r.Err? ==> r.error == ColumnIndexOutOfRange(inputColumnIndex)
  {
    if inputColumnIndex < |inputSchema| then Ok([inputSchema[inputColumnIndex]])
    else Err(ColumnIndexOutOfRange(inputColumnIndex))
  }

  /** A plan resolved against `inputSchema`: the selected index is a column of it, and the output schema is that column alone. */
  predicate PlanFor(plan: Plan, inputSchema: Schema) {
    plan.inputColumnIndex < |inputSchema| && plan.outputSchema == [inputSchema[plan.inputColumnIndex]]
  }

  /**
   * The setup part of `open`: resolve the column, build the output schema
   * and fix the null string and the renderers for the run. It fails exactly
   * when the configured name is not a column, or when no name is configured
   * and the schema has no columns.
   */
  function Setup(task: Task, inputSchema: Schema, foreign: Foreign): (r: Result<Plan, SetupError>)
    ensures WellFormed(inputSchema) ==>
      (r.Ok? <==>
        if task.columnName.None? then |inputSchema| > 0
        else exists i :: 0 <= i < |inputSchema| && inputSchema[i].name == task.columnName.value)
    ensures r.Ok? ==> PlanFor(r.value, inputSchema) && r.value.nullString == task.nullString
    ensures r.Ok? && task.columnName.None? ==> r.value.inputColumnIndex == 0
    ensures r.Ok? && task.columnName.Some? && WellFormed(inputSchema) ==>
      inputSchema[r.value.inputColumnIndex].name == task.columnName.value
    ensures r.Ok? && task.columnName.Some? && WellFormed(inputSchema) ==>
      forall j :: 0 <= j < r.value.inputColumnIndex ==> inputSchema[j].name != task.columnName.value
    ensures r.Ok? ==>
      forall t :: r.value.render.timestamp(t) == foreign.formatTimestamp(task.timestampFormat, task.timezone, t)
    ensures r.Ok? ==> r.value.render.double == foreign.doubleToString && r.value.render.json == foreign.toJson
  {
    var index :- InputColumnIndex(task.columnName, inputSchema);
    var outputSchema :- OutputSchema(index, inputSchema);
    var render := Render(
      t => foreign.formatTimestamp(task.timestampFormat, task.timezone, t),
      foreign.doubleToString,
      foreign.toJson);
    Ok(Plan(index, outputSchema, task.nullString, render))
  }

  /** Boolean.toString. */
  function BooleanToString(b: bool): string {
    if b then "true" else "false"
  }

  /**
   * The column visitor: the text for one cell of a column of type `t`. A
   * null of any type is the null string; otherwise the rule of the type.
   */
  function Stringify(t: ColType, cell: Option<Value>, nullString: string, render: Render): (r: string)
    requires CellFits(cell, t)
    ensures cell.None? ==> r == nullString
    ensures cell.Some? && cell.value.BooleanValue? ==>
      (r == "true" || r == "false") && (r == "true" <==> cell.value.b)
    ensures cell.Some? && cell.value.LongValue? ==>
      IsCanonicalDecimal(r) && ParseDecimal(r) == Some(cell.value.n as int) && (r[0] == '-' <==> cell.value.n < 0)
    ensures cell.Some? && cell.value.StringValue? ==> r == cell.value.s
    ensures cell.Some? && cell.value.DoubleValue? ==> r == render.double(cell.value.d)
    ensures cell.Some? && cell.value.TimestampValue? ==> r == render.timestamp(cell.value.t)
    ensures cell.Some? && cell.value.JsonValue? ==> r == render.json(cell.value.j)
  {
    match t
    case BooleanType => if cell.None? then nullString else BooleanToString(cell.value.b)
    case LongType =>
      if cell.None? then nullString
      else
        ParseLongToDecimal(cell.value.n);
        CanonicalIsLongToDecimal("", cell.value.n as int);
        LongToDecimal(cell.value.n as int)
    case DoubleType => if cell.None? then nullString else render.double(cell.value.d)
    case StringType => if cell.None? then nullString else cell.value.s
    case TimestampType => if cell.None? then nullString else render.timestamp(cell.value.t)
    case JsonType => if cell.None? then nullString else render.json(cell.value.j)
  }

  /** The record has the selected cell, and that cell has the type the output column declares. */
  predicate Fits(plan: Plan, rec: Record) {
    |plan.outputSchema| == 1 && plan.inputColumnIndex < |rec| &&
    CellFits(rec[plan.inputColumnIndex], plan.outputSchema[0].colType)
  }

  lemma ConformingRecordFits(plan: Plan, inputSchema: Schema, rec: Record)
    requires PlanFor(plan, inputSchema) && Conforms(inputSchema, rec)
    ensures Fits(plan, rec)
  {
  }

  /** Every record fits the plan. */
  predicate AllFit(plan: Plan, records: seq<Record>) {
    forall i :: 0 <= i < |records| ==> Fits(plan, records[i])
  }

  /** The text of one record's line: the visitor run on the output schema's only column. */
  function RecordLine(plan: Plan, rec: Record): string
    requires Fits(plan, rec)
  {
    Stringify(plan.outputSchema[0].colType, rec[plan.inputColumnIndex], plan.nullString, plan.render)
  }

  /** The lines of `records`, one per record, in order. */
  function RecordLines(plan: Plan, records: seq<Record>): (lines: seq<string>)
    requires AllFit(plan, records)
  {
    seq(|records|, i requires 0 <= i < |records| => RecordLine(plan, records[i]))
  }

  /** The calls `add` makes on the encoder for `records`: each record's text, then a line break. */
  function Emit(plan: Plan, records: seq<Record>): (calls: seq<Call>)
    requires AllFit(plan, records)
    ensures |calls| == 2 * |records|
    ensures forall i :: 0 <= i < |calls| ==> calls[i].AddText? || calls[i].AddNewLine?
  {
    if records == [] then []
    else [AddText(RecordLine(plan, records[0])), AddNewLine] + Emit(plan, records[1..])
  }

  /** Record `i`'s text is the call at `2 * i`, and the line break right after it. */
  lemma {:induction false} EmitAt(plan: Plan, records: seq<Record>, i: nat)
    requires AllFit(plan, records) && i < |records|
    ensures Emit(plan, records)[2 * i] == AddText(RecordLine(plan, records[i]))
    ensures Emit(plan, records)[2 * i + 1] == AddNewLine
  {
    if i > 0 {
      EmitAt(plan, records[1..], i - 1);
    }
  }

  /** Adding records one page after another emits what adding them all at once does. */
  lemma {:induction false} EmitAppend(plan: Plan, a: seq<Record>, b: seq<Record>)
    requires AllFit(plan, a) && AllFit(plan, b)
    ensures AllFit(plan, a + b)
    ensures Emit(plan, a + b) == Emit(plan, a) + Emit(plan, b)
  {
    if a == [] {
      assert a + b == b;
    } else {
      var head := [AddText(RecordLine(plan, a[0])), AddNewLine];
      assert (a + b)[1..] == a[1..] + b;
      assert (a + b)[0] == a[0];
      EmitAppend(plan, a[1..], b);
      assert Emit(plan, a + b) == head + Emit(plan, a[1..] + b);
      assert Emit(plan, a) == head + Emit(plan, a[1..]);
    }
  }

  /** Adding one record emits its text and a line break after what was emitted before. */
  lemma EmitOneMore(plan: Plan, records: seq<Record>, rec: Record)
    requires AllFit(plan, records) && Fits(plan, rec)
    ensures AllFit(plan, records + [rec])
    ensures Emit(plan, records + [rec]) == Emit(plan, records) + [AddText(RecordLine(plan, rec)), AddNewLine]
  {
    EmitAppend(plan, records, [rec]);
    assert Emit(plan, [rec]) == [AddText(RecordLine(plan, rec)), AddNewLine] + Emit(plan, []);
  }

  /**
   * The lines read back from the emitted calls are the records' lines, one
   * per record and in record order, whatever text a record's cell holds.
   */
  lemma {:induction false} LinesOfEmit(plan: Plan, records: seq<Record>, rest: seq<Call>)
    requires AllFit(plan, records)
    ensures Lines(Emit(plan, records) + rest, "") == RecordLines(plan, records) + Lines(rest, "")
  {
    if records == [] {
      assert Emit(plan, records) + rest == rest;
      assert RecordLines(plan, records) == [];
    } else {
      var line := RecordLine(plan, records[0]);
      var tail := Emit(plan, records[1..]) + rest;
      var log := Emit(plan, records) + rest;
      assert Emit(plan, records) == [AddText(line), AddNewLine] + Emit(plan, records[1..]);
      assert log == [AddText(line), AddNewLine] + tail;
      assert log[1..] == [AddNewLine] + tail;
      assert log[1..][1..] == tail;
      assert "" + line == line;
      assert Lines(log[1..], line) == [line] + Lines(tail, "");
      assert Lines(log, "") == Lines(log[1..], line);
      LinesOfEmit(plan, records[1..], rest);
      assert RecordLines(plan, records) == [line] + RecordLines(plan, records[1..]);
    }
  }

  /** Calls that write no line break add no line. */
  lemma {:induction false} NoLinesWithoutNewLine(log: seq<Call>, acc: string)
    requires forall i :: 0 <= i < |log| ==> !log[i].AddNewLine?
    ensures Lines(log, acc) == []
  {
    if log != [] {
      if log[0].AddText? {
        NoLinesWithoutNewLine(log[1..], acc + log[0].text);
      } else {
        NoLinesWithoutNewLine(log[1..], acc);
      }
    }
  }

  /**
   * A whole run's calls, from NextFile through Finish or Close, hold exactly
   * one line per record added, in order.
   */
  lemma OutputLines(plan: Plan, records: seq<Record>, ending: seq<Call>)
    requires AllFit(plan, records)
    requires forall i :: 0 <= i < |ending| ==> ending[i].Finish? || ending[i].Close?
    ensures Lines([NextFile] + Emit(plan, records) + ending, "") == RecordLines(plan, records)
  {
    var emitted := Emit(plan, records);
    var log := [NextFile] + emitted + ending;
    assert log == [NextFile] + (emitted + ending);
    assert log[1..] == emitted + ending;
    assert Lines(log, "") == Lines(emitted + ending, "");
    LinesOfEmit(plan, records, ending);
    NoLinesWithoutNewLine(ending, "");
    assert RecordLines(plan, records) + [] == RecordLines(plan, records);
  }

  /** The emitted calls depend on each record's selected cell only; no other column affects them. */
  lemma {:induction false} EmitSelectedCellOnly(plan: Plan, a: seq<Record>, b: seq<Record>)
    requires AllFit(plan, a) && |a| == |b|
    requires forall i :: 0 <= i < |b| ==>
      plan.inputColumnIndex < |a[i]| && plan.inputColumnIndex < |b[i]| &&
      a[i][plan.inputColumnIndex] == b[i][plan.inputColumnIndex]
    ensures AllFit(plan, b)
    ensures Emit(plan, a) == Emit(plan, b)
  {
    if a != [] {
      EmitSelectedCellOnly(plan, a[1..], b[1..]);
    }
  }

  /**
   * Against the columns a, b, c: the name "b" selects the second column, no
   * name selects the first, and the name "z" fails before anything is opened.
   */
  lemma SelectionExamples(foreign: Foreign)
    ensures var schema := [Column(0, "a", LongType), Column(1, "b", StringType), Column(2, "c", BooleanType)];
      var byName := Setup(LoadTask(Some("b"), None, None, None), schema, foreign);
      var byDefault := Setup(LoadTask(None, None, None, None), schema, foreign);
      var missing := Setup(LoadTask(Some("z"), None, None, None), schema, foreign);
      byName.Ok? && byName.value.inputColumnIndex == 1 && byName.value.outputSchema == [schema[1]] &&
      byDefault.Ok? && byDefault.value.inputColumnIndex == 0 &&
      missing == Err(ColumnNotFound("z"))
  {
  }

  /** The text of a few non-null cells, and of a null one. */
  lemma StringifyExamples(render: Render)
    ensures Stringify(LongType, Some(LongValue(-42)), "", render) == "-42"
    ensures Stringify(LongType, Some(LongValue(0)), "", render) == "0"
    ensures Stringify(BooleanType, Some(BooleanValue(false)), "", render) == "false"
    ensures Stringify(StringType, None, "NULL", render) == "NULL"
  {
  }

  /** The PageOutput that `open` returns: it owns the encoder for the run. */
  class SingleValuePageOutput {
    const plan: Plan
    const inputSchema: Schema
    const encoder: LineEncoder
    /** Every record added so far. */
    ghost var records: seq<Record>
    /** Finish and Close, as far as they have happened. */
    ghost var ending: seq<Call>

    ghost predicate Valid()
      reads this, encoder
    {
      PlanFor(plan, inputSchema) && encoder.Valid() &&
      (forall i :: 0 <= i < |records| ==> Conforms(inputSchema, records[i])) && AllFit(plan, records) &&
      encoder.log == [NextFile] + Emit(plan, records) + ending &&
      (encoder.phase == Opened <==> ending == []) &&
      (encoder.phase == Finished <==> ending == [Call.Finish]) &&
      (encoder.phase == Closed <==> ending == [Call.Close] || ending == [Call.Finish, Call.Close])
    }

    /** The PageOutput built at the end of `open`, over an encoder whose file is open and empty. */
    constructor (plan: Plan, inputSchema: Schema, e: LineEncoder)
      requires PlanFor(plan, inputSchema)
      requires e.Valid() && e.phase == Opened && e.log == [NextFile]
      ensures Valid() && encoder == e
      ensures this.plan == plan && this.inputSchema == inputSchema
      ensures records == [] && encoder.phase == Opened && encoder.log == [NextFile]
    {
      this.plan := plan;
      this.inputSchema := inputSchema;
      encoder := e;
      records := [];
      ending := [];
      new;
      assert AllFit(plan, records) && Emit(plan, records) == [];
      assert encoder.log == [NextFile] + Emit(plan, records) + ending;
    }

    /** One pass of the loop in add: the visitor writes the record's text, then the line break. */
    method AddRecord(rec: Record)
      requires Valid() && encoder.phase == Opened && ending == []
      requires Conforms(inputSchema, rec)
      modifies this, encoder
      ensures Valid() && encoder.phase == Opened && ending == []
      ensures Fits(plan, rec)
      ensures records == old(records) + [rec]
      ensures encoder.log == old(encoder.log) + [AddText(RecordLine(plan, rec)), AddNewLine]
    {
      var text := Stringify(plan.outputSchema[0].colType, rec[plan.inputColumnIndex], plan.nullString, plan.render);
      ghost var emitted := Emit(plan, records);
      assert encoder.log == [NextFile] + emitted by {
        assert [NextFile] + emitted + ending == [NextFile] + emitted;
      }
      encoder.AddText(text);
      encoder.AddNewLine();
      ghost var written := [AddText(RecordLine(plan, rec)), AddNewLine];
      EmitOneMore(plan, records, rec);
      records := records + [rec];
      assert encoder.log == [NextFile] + (emitted + written) + ending;
    }

    /** add: for every record of the page, in order, its line's text and then a line break. */
    method Add(page: seq<Record>)
      requires Valid() && encoder.phase == Opened
      requires forall i :: 0 <= i < |page| ==> Conforms(inputSchema, page[i])
      modifies this, encoder
      ensures Valid() && encoder.phase == Opened
      ensures AllFit(plan, page)
      ensures records == old(records) + page
      ensures encoder.log == old(encoder.log) + Emit(plan, page)
      ensures Lines(encoder.log, "") == RecordLines(plan, records)
    {
      forall k | 0 <= k < |page|
        ensures Fits(plan, page[k])
      {
        ConformingRecordFits(plan, inputSchema, page[k]);
      }
      var i := 0;
      while i < |page|
        invariant 0 <= i <= |page|
        invariant Valid() && encoder.phase == Opened && ending == []
        invariant records == old(records) + page[..i]
        invariant encoder.log == old(encoder.log) + Emit(plan, page[..i])
      {
        AddRecord(page[i]);
        EmitOneMore(plan, page[..i], page[i]);
        assert page[..i + 1] == page[..i] + [page[i]];
        i := i + 1;
      }
      assert page[..i] == page;
      OutputLines(plan, records, ending);
    }

    /** finish: forwards to the encoder; nothing is added after it. */
    method Finish()
      requires Valid() && encoder.phase == Opened
      modifies this, encoder
      ensures Valid() && encoder.phase == Finished && records == old(records)
      ensures encoder.log == old(encoder.log) + [Call.Finish]
    {
      encoder.Finish();
      ending := [Call.Finish];
    }

    /** close: forwards to the encoder, whether or not the run finished. */
    method Close()
      requires Valid() && encoder.phase != Closed
      modifies this, encoder
      ensures Valid() && encoder.phase == Closed && records == old(records)
      ensures encoder.log == old(encoder.log) + [Call.Close]
      ensures Lines(encoder.log, "") == RecordLines(plan, records)
    {
      encoder.Close();
      ending := ending + [Call.Close];
      OutputLines(plan, records, ending);
    }
  }

  /**
   * open: create the encoder, resolve the plan, then open the encoder's
   * file. A configuration that cannot be resolved fails after the encoder
   * is created but before NextFile, so no call reaches the encoder.
   */
  method Open(task: Task, inputSchema: Schema, foreign: Foreign)
    returns (encoder: LineEncoder, r: Result<SingleValuePageOutput, SetupError>)
    ensures fresh(encoder) && encoder.Valid()
    ensures r.Err? <==> Setup(task, inputSchema, foreign).Err?
    ensures r.Err? ==> r.error == Setup(task, inputSchema, foreign).error
    ensures r.Err? ==> encoder.phase == Idle && encoder.log == []
    ensures r.Ok? ==> fresh(r.value) && r.value.encoder == encoder && r.value.Valid()
    ensures r.Ok? ==> r.value.plan == Setup(task, inputSchema, foreign).value && r.value.inputSchema == inputSchema
    ensures r.Ok? ==> r.value.records == [] && encoder.phase == Opened && encoder.log == [NextFile]
  {
    encoder := new LineEncoder();
    match Setup(task, inputSchema, foreign)
    case Err(e) => r := Err(e);
    case Ok(plan) =>
      encoder.NextFile();
      var output := new SingleValuePageOutput(plan, inputSchema, encoder);
      r := Ok(output);
  }
}
