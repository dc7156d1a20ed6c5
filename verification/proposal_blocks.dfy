/**
 * The formatting helpers of the proposal generator: display-safe strings,
 * text runs, paragraphs, headings and bordered tables, built as abstract
 * document blocks rather than objects of an office-document library.
 */
module ProposalBlocks {
  import opened JsValues

  datatype Align = Left | Center | Right | Justified

  datatype HeadingLevel = Heading1 | Heading2 | Heading3

  /** A run of styled text, the logo image, or a page-number field of the footer. */
  datatype Run =
    | TextRun(text: string, font: string, size: int, bold: bool, italics: bool, color: string)
    | LogoRun(width: nat, height: nat)
    | PageNumberRun(totalPages: bool)

  /** The `options` object of `createText`; an absent or zero size and an absent or empty colour fall back to the defaults. */
  datatype TextOptions = TextOptions(size: Option<int>, bold: bool, italics: bool, color: Option<string>)

  const NoTextOptions := TextOptions(None, false, false, None)

  /** The `options` object of `createParagraph`. */
  datatype ParaOptions = ParaOptions(
    textOptions: TextOptions,
    spacingBefore: Option<int>,
    spacingAfter: Option<int>,
    alignment: Option<Align>,
    bullet: bool,
    indentLeft: Option<int>)

  const NoParaOptions := ParaOptions(NoTextOptions, None, None, None, false, None)

  /** What `createParagraph` is given: an array of ready runs, or one value to turn into a run. */
  datatype ParaContent = Runs(runs: seq<Run>) | Value(v: JsValue)

  datatype Paragraph = Paragraph(
    runs: seq<Run>,
    spacingBefore: int,
    spacingAfter: int,
    line: int,
    alignment: Align,
    bullet: bool,
    indentLeft: Option<int>)

  /** A column width: a percentage, or an equal share of the given number of columns (the source divides 100 by it). */
  datatype Width = Percent(p: int) | EqualShare(columns: nat)

  datatype Cell = Cell(content: Paragraph, width: Option<Width>)

  datatype Row = Row(cells: seq<Cell>, isHeader: bool)

  /**
   * One renderable unit of the document body. A heading stands for the
   * paragraph `createHeading` builds (left aligned, 240 before and 120 after);
   * a spacer is an empty paragraph with only a spacing before it; a page break
   * is a paragraph holding nothing but a page break; a table has single black
   * borders and spans the full width.
   */
  datatype Block =
    | Para(p: Paragraph)
    | Heading(level: HeadingLevel, run: Run)
    | Table(rows: seq<Row>)
    | Spacer(before: int)
    | PageBreak

  /** `safeString`: null, undefined and the empty string become "", everything else `String(val)`. */
  function SafeString(v: JsValue): (r: string)
    ensures r == "" <==> v == Undefined || v == Null || v == Str("")
    ensures v.Str? ==> r == v.s
    ensures v.Int? ==> r == IntToString(v.i) && |r| >= 1
    ensures v == Int(0) ==> r == "0"
  {
    if v == Null || v == Undefined || v == Str("") then "" else JsString(v)
  }

  /** `createText`: a Calibri run of the safe string, 11 pt, black and plain unless the options say otherwise. */
  function CreateText(text: JsValue, options: TextOptions): (r: Run)
    ensures r.TextRun? && r.text == SafeString(text) && r.font == "Calibri"
    ensures r.size != 0 && r.color != ""
    ensures r.bold == options.bold && r.italics == options.italics
    ensures options.size == None ==> r.size == 22
    ensures options.color == None ==> r.color == "000000"
  {
    TextRun(SafeString(text), "Calibri", NumberOr(options.size, 22), options.bold, options.italics,
            TextOr(options.color, "000000"))
  }

  /**
   * `createParagraph`: the given runs, or one run made by `createText`;
   * spacing 120 before and after and justified text unless the options say
   * otherwise, 1.5 line spacing.
   */
  function CreateParagraph(content: ParaContent, options: ParaOptions): (r: Paragraph)
    ensures content.Runs? ==> r.runs == content.runs
    ensures content.Value? ==> r.runs == [CreateText(content.v, options.textOptions)]
    ensures r.spacingBefore != 0 && r.spacingAfter != 0 && r.line == 360
    ensures options.alignment == None ==> r.alignment == Justified
    ensures options.alignment.Some? ==> r.alignment == options.alignment.value
    ensures r.bullet == options.bullet && r.indentLeft == options.indentLeft
  {
    var runs := if content.Runs? then content.runs else [CreateText(content.v, options.textOptions)];
    Paragraph(runs, NumberOr(options.spacingBefore, 120), NumberOr(options.spacingAfter, 120), 360,
              if options.alignment.Some? then options.alignment.value else Justified,
              options.bullet, options.indentLeft)
  }

  /**
   * A spacing of 0 passed to `createParagraph` is falsy in `options.spacingAfter || 120`
   * and so yields the default 120, not 0.
   */
  lemma ZeroSpacingFallsBackToDefault(content: ParaContent, options: ParaOptions)
    requires options.spacingAfter == Some(0)
    ensures CreateParagraph(content, options).spacingAfter == 120
  {
  }

  /** `createHeading`: bold blue text, 18, 16 or 14 pt for levels 1, 2 and anything else. */
  function CreateHeading(text: JsValue, level: int): (r: Block)
    ensures r.Heading? && r.run.TextRun?
    ensures r.run.text == SafeString(text) && r.run.bold && r.run.color == "2E74B5"
    ensures level == 1 <==> r.level == Heading1
    ensures level == 2 <==> r.level == Heading2
    ensures r.level == Heading1 ==> r.run.size == 36
    ensures r.level == Heading2 ==> r.run.size == 32
    ensures r.level == Heading3 ==> r.run.size == 28
  {
    var size := if level == 1 then 36 else if level == 2 then 32 else 28;
    Heading(if level == 1 then Heading1 else if level == 2 then Heading2 else Heading3,
            CreateText(text, NoTextOptions.(bold := true, size := Some(size), color := Some("2E74B5"))))
  }

  /** A paragraph block of one value: the common `createParagraph(text, options)` call. */
  function TextPara(text: JsValue, options: ParaOptions): Block {
    Para(CreateParagraph(Value(text), options))
  }

  /** A paragraph block of a literal string with default options. */
  function Plain(text: string): Block {
    TextPara(Str(text), NoParaOptions)
  }

  /** `options.width ? … : undefined`: a zero percentage is falsy and gives no width. */
  predicate WidthTruthy(w: Width) {
    w.Percent? ==> w.p != 0
  }

  /** `widths[i]` as a cell width: missing past the end of the array. */
  function WidthAt(widths: seq<Width>, i: nat): (r: Option<Width>)
    ensures r.Some? <==> i < |widths| && WidthTruthy(widths[i])
    ensures r.Some? ==> r.value == widths[i]
  {
    if i < |widths| && WidthTruthy(widths[i]) then Some(widths[i]) else None
  }

  /** `createCell`: one paragraph of the content, left aligned unless told otherwise. */
  function CreateCell(content: JsValue, textOptions: TextOptions, alignment: Option<Align>, width: Option<Width>): (c: Cell)
    ensures c.content.runs == [CreateText(content, textOptions)]
    ensures c.content.alignment == if alignment.Some? then alignment.value else Left
    ensures c.width == width
  {
    Cell(CreateParagraph(Value(content), NoParaOptions.(textOptions := textOptions,
                                                         alignment := Some(if alignment.Some? then alignment.value else Left))),
         width)
  }

  const BoldText := NoTextOptions.(bold := true)

  /** The header row of `createSimpleTable`: bold, centred cells, marked as a table header. */
  function HeaderRow(headers: seq<JsValue>, widths: seq<Width>): Row {
    Row(seq(|headers|, i requires 0 <= i < |headers| => CreateCell(headers[i], BoldText, Some(Center), WidthAt(widths, i))),
        true)
  }

  /** One data row of `createSimpleTable`: plain, left-aligned cells. */
  function DataRow(cells: seq<JsValue>, widths: seq<Width>): Row {
    Row(seq(|cells|, i requires 0 <= i < |cells| => CreateCell(cells[i], NoTextOptions, None, WidthAt(widths, i))),
        false)
  }

  /** `headers && headers.length > 0`. */
  predicate HasHeader(headers: Option<seq<JsValue>>) {
    headers.Some? && |headers.value| > 0
  }

  /** The table `createSimpleTable(headers, data, widths)` returns. */
  function SimpleTable(headers: Option<seq<JsValue>>, data: seq<seq<JsValue>>, widths: seq<Width>): Block {
    Table((if HasHeader(headers) then [HeaderRow(headers.value, widths)] else [])
          + seq(|data|, i requires 0 <= i < |data| => DataRow(data[i], widths)))
  }

  /**
   * The shape of a simple table: at most one header row, present exactly when
   * headers are given, bold and centred; then one row per data entry in input
   * order, never a header; cell i of every row carries `widths[i]` and shows
   * the safe string of its value.
   */
  lemma SimpleTableShape(headers: Option<seq<JsValue>>, data: seq<seq<JsValue>>, widths: seq<Width>)
    ensures var t := SimpleTable(headers, data, widths);
      var off := if HasHeader(headers) then 1 else 0;
      && t.Table?
      && |t.rows| == off + |data|
      && (forall r :: 0 <= r < |t.rows| ==> (t.rows[r].isHeader <==> r < off))
      && (HasHeader(headers) ==>
            |t.rows[0].cells| == |headers.value| &&
            forall i :: 0 <= i < |headers.value| ==>
              var c := t.rows[0].cells[i];
              c.content.runs == [CreateText(headers.value[i], BoldText)] && c.content.alignment == Center &&
              c.width == WidthAt(widths, i))
      && (forall r :: 0 <= r < |data| ==>
            |t.rows[off + r].cells| == |data[r]| &&
            forall i :: 0 <= i < |data[r]| ==>
              var c := t.rows[off + r].cells[i];
              c.content.runs == [CreateText(data[r][i], NoTextOptions)] && c.content.alignment == Left &&
              c.width == WidthAt(widths, i))
  {
  }

  /**
   * `createSimpleTable`, which fills a local array of rows: the header row
   * first when there are headers, then the data rows one by one.
   */
  method CreateSimpleTable(headers: Option<seq<JsValue>>, data: seq<seq<JsValue>>, widths: seq<Width>)
    returns (t: Block)
    ensures t == SimpleTable(headers, data, widths)
    ensures t.Table? && |t.rows| == |data| + (if HasHeader(headers) then 1 else 0)
  {
    var rows: seq<Row> := [];
    if headers.Some? && |headers.value| > 0 {
      rows := rows + [HeaderRow(headers.value, widths)];
    }
    var header := rows;
    var k := 0;
    while k < |data|
      invariant 0 <= k <= |data|
      invariant rows == header + seq(k, i requires 0 <= i < k => DataRow(data[i], widths))
    {
      rows := rows + [DataRow(data[k], widths)];
      k := k + 1;
    }
    t := Table(rows);
  }
}
