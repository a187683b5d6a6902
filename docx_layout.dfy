/** How the exporter lays the parsed Markdown blocks out as Word
    paragraphs and tables, and the application header it puts in front.
    Word objects are plain values here: a paragraph keeps its kind, its
    text and what distinguishes it (style, numbering reference, shading,
    and the alignment the exporter sets: justified body text, centred
    table cells and header lines); fonts, sizes, borders and most spacing
    are left out. Inline formatting
    is not parsed, so a paragraph's text is the element's raw text. */
module DocxLayout {
  import opened JsStrings
  import opened Types
  import opened Markdown

  datatype HeadingStyle = Heading1 | Heading2 | Heading3 | Heading4

  datatype NumberFormat = Decimal | Bullet

  /** One entry of the document's numbering definitions: a single level
      with its format and marker text. */
  datatype NumberingConfig = NumberingConfig(reference: string, format: NumberFormat, text: string)

  /** A paragraph alignment the exporter sets explicitly. Headings, list
      items, code lines and field lines keep Word's default. */
  datatype Alignment = Justified | Centred

  datatype Cell = Cell(text: string, width: nat, shaded: bool, alignment: Alignment)

  datatype Row = Row(isHeader: bool, cells: seq<Cell>)

  datatype Block =
    | HeadingPara(style: HeadingStyle, text: string)
    | BodyPara(text: string, alignment: Alignment)
    | ListItemPara(reference: string, text: string)
    | TableBlock(columnWidths: seq<nat>, rows: seq<Row>)
    | CodeLinePara(text: string)
    | Spacer(after: nat)
    /** One of the header's centred lines. */
    | HeaderLine(text: string, bold: bool)
    | FieldLine(caption: string, value: string)

  /** The width of the text area, in twentieths of a point. */
  const TableWidth: nat := 9360

  /** The space after a code block. */
  const CodeSpacing: nat := 120

  /** The space after the header. */
  const HeaderSpacing: nat := 400

  /** Levels 1-3 keep their own heading style; every deeper level shares
      the fourth. */
  function HeadingStyleOf(level: nat): HeadingStyle {
    if level == 1 then Heading1
    else if level == 2 then Heading2
    else if level == 3 then Heading3
    else Heading4
  }

  function StyleRank(s: HeadingStyle): nat {
    match s
    case Heading1 => 1
    case Heading2 => 2
    case Heading3 => 3
    case Heading4 => 4
  }

  /** The heading levels the parser produces collapse onto four styles:
      the style's rank is the level up to 3 and 4 beyond. */
  lemma HeadingLevelMapping(level: nat)
    requires 1 <= level <= 6
    ensures StyleRank(HeadingStyleOf(level)) == if level <= 3 then level else 4
    ensures level >= 4 ==> HeadingStyleOf(level) == HeadingStyleOf(6)
  {
  }

  /** `numbered-k` or `bullet-k`, for the list rendered after `k` others. */
  function ListReference(isOrdered: bool, counter: nat): string {
    (if isOrdered then "numbered-" else "bullet-") + NatToString(counter)
  }

  function ListConfig(isOrdered: bool, counter: nat): NumberingConfig {
    NumberingConfig(ListReference(isOrdered, counter), if isOrdered then Decimal else Bullet, if isOrdered then "%1." else "•")
  }

  /** The decimal rendering is injective. */
  lemma {:induction false} NatToStringInjective(n: nat, m: nat)
    requires NatToString(n) == NatToString(m)
    ensures n == m
    decreases n
  {
    var s, t := NatToString(n), NatToString(m);
    if n < 10 && m < 10 {
      assert DigitChar(n) == s[0] == t[0] == DigitChar(m);
      DigitCharInjective(n, m);
    } else if n < 10 || m < 10 {
      assert false;
    } else {
      assert s[..|s| - 1] == NatToString(n / 10) && t[..|t| - 1] == NatToString(m / 10);
      NatToStringInjective(n / 10, m / 10);
      assert DigitChar(n % 10) == s[|s| - 1] == t[|t| - 1] == DigitChar(m % 10);
      DigitCharInjective(n % 10, m % 10);
    }
  }

  lemma DigitCharInjective(a: nat, b: nat)
    requires a < 10 && b < 10 && DigitChar(a) == DigitChar(b)
    ensures a == b
  {
  }

  /** Two lists get the same reference only when they are of the same kind
      and have the same counter. */
  lemma ListReferenceInjective(o1: bool, c1: nat, o2: bool, c2: nat)
    requires ListReference(o1, c1) == ListReference(o2, c2)
    ensures o1 == o2 && c1 == c2
  {
    var r1, r2 := ListReference(o1, c1), ListReference(o2, c2);
    assert r1[0] == (if o1 then 'n' else 'b') && r2[0] == (if o2 then 'n' else 'b');
    var p := if o1 then "numbered-" else "bullet-";
    assert r1[|p|..] == NatToString(c1) && r2[|p|..] == NatToString(c2);
    NatToStringInjective(c1, c2);
  }

  /** The largest row length (`Math.max` over the rows). */
  function MaxCols(rows: seq<seq<string>>): (m: nat)
    ensures forall k :: 0 <= k < |rows| ==> |rows[k]| <= m
    ensures |rows| > 0 ==> exists k :: 0 <= k < |rows| && |rows[k]| == m
    ensures |rows| == 0 ==> m == 0
  {
    if |rows| == 0 then 0
    else if |rows[0]| >= MaxCols(rows[1..]) then |rows[0]|
    else MaxCols(rows[1..])
  }

  /** The width of each column: the text width shared out evenly, rounded
      down. With no column there is no cell to give it to. */
  function ColumnWidth(maxCols: nat): nat {
    if maxCols == 0 then 0 else TableWidth / maxCols
  }

  /** The row with empty cells appended up to `n` cells. */
  function Padded(row: seq<string>, n: nat): seq<string> {
    if |row| >= n then row else row + Blanks(n - |row|)
  }

  function Blanks(k: nat): seq<string> {
    seq(k, _ => "")
  }

  lemma BlanksOneMore(k: nat)
    ensures Blanks(k + 1) == Blanks(k) + [""]
  {
  }

  function CellsOf(texts: seq<string>, width: nat, shaded: bool): seq<Cell> {
    seq(|texts|, c requires 0 <= c < |texts| => Cell(texts[c], width, shaded, Centred))
  }

  /** A row padded to `maxCols` cells; header cells are shaded. */
  function RenderRow(row: seq<string>, isHeader: bool, maxCols: nat, width: nat): Row {
    Row(isHeader, CellsOf(Padded(row, maxCols), width, isHeader))
  }

  function RenderRows(rows: seq<seq<string>>, maxCols: nat, width: nat): seq<Row> {
    seq(|rows|, k requires 0 <= k < |rows| => RenderRow(rows[k], k == 0, maxCols, width))
  }

  function Widths(n: nat, width: nat): seq<nat> {
    seq(n, _ => width)
  }

  function TableBlockOf(rows: seq<seq<string>>): Block {
    TableBlock(Widths(MaxCols(rows), ColumnWidth(MaxCols(rows))), RenderRows(rows, MaxCols(rows), ColumnWidth(MaxCols(rows))))
  }

  function ListItems(items: seq<string>, reference: string): seq<Block> {
    seq(|items|, k requires 0 <= k < |items| => ListItemPara(reference, items[k]))
  }

  function CodeLines(lines: seq<string>): seq<Block> {
    seq(|lines|, k requires 0 <= k < |lines| => CodeLinePara(lines[k]))
  }

  /** The paragraphs one element becomes; `counter` is the number of lists
      rendered before it. */
  function RenderElement(e: Element, counter: nat): seq<Block> {
    match e
    case Heading(level, content) => [HeadingPara(HeadingStyleOf(level), content)]
    case Paragraph(content) => [BodyPara(content, Justified)]
    case List(items, isOrdered) => ListItems(items, ListReference(isOrdered, counter))
    case Table(rows) => if |rows| > 0 then [TableBlockOf(rows)] else []
    case Code(content) => CodeLines(Split(content, '\n')) + [Spacer(CodeSpacing)]
  }

  function NextCounter(e: Element, counter: nat): nat {
    if e.List? then counter + 1 else counter
  }

  /** The paragraphs of `elements[i..]`, lists numbered from `counter`. */
  function RenderFrom(elements: seq<Element>, i: nat, counter: nat): seq<Block>
    decreases |elements| - i
  {
    if i >= |elements| then []
    else RenderElement(elements[i], counter) + RenderFrom(elements, i + 1, NextCounter(elements[i], counter))
  }

  /** The numbering definitions the lists of `elements[i..]` add. */
  function ConfigsFrom(elements: seq<Element>, i: nat, counter: nat): seq<NumberingConfig>
    decreases |elements| - i
  {
    if i >= |elements| then []
    else
      (if elements[i].List? then [ListConfig(elements[i].isOrdered, counter)] else []) +
      ConfigsFrom(elements, i + 1, NextCounter(elements[i], counter))
  }

  /** Whether each list of `elements[i..]` is ordered, in order. */
  function ListKinds(elements: seq<Element>, i: nat): seq<bool>
    decreases |elements| - i
  {
    if i >= |elements| then []
    else (if elements[i].List? then [elements[i].isOrdered] else []) + ListKinds(elements, i + 1)
  }

  /** Config `k` belongs to list `k`, whose counter is `counter + k`. */
  predicate ConfigsNumbered(configs: seq<NumberingConfig>, kinds: seq<bool>, counter: nat) {
    |configs| == |kinds| && forall k :: 0 <= k < |configs| ==> configs[k] == ListConfig(kinds[k], counter + k)
  }

  /** Each list adds exactly one numbering definition, and the k-th list
      (from 0) is referenced with counter k. */
  lemma {:induction false} ConfigsMatchLists(elements: seq<Element>, i: nat, counter: nat)
    ensures ConfigsNumbered(ConfigsFrom(elements, i, counter), ListKinds(elements, i), counter)
    decreases |elements| - i
  {
    if i < |elements| {
      var e := elements[i];
      ConfigsMatchLists(elements, i + 1, NextCounter(e, counter));
      if e.List? {
        ConfigsNumberedCons(ConfigsFrom(elements, i + 1, counter + 1), ListKinds(elements, i + 1), e.isOrdered, counter);
      }
    }
  }

  lemma ConfigsNumberedCons(configs: seq<NumberingConfig>, kinds: seq<bool>, isOrdered: bool, counter: nat)
    requires ConfigsNumbered(configs, kinds, counter + 1)
    ensures ConfigsNumbered([ListConfig(isOrdered, counter)] + configs, [isOrdered] + kinds, counter)
  {
    var c, d := [ListConfig(isOrdered, counter)] + configs, [isOrdered] + kinds;
    forall k | 0 <= k < |c|
      ensures c[k] == ListConfig(d[k], counter + k)
    {
      if k > 0 {
        assert c[k] == configs[k - 1] && d[k] == kinds[k - 1];
      }
    }
  }

  /** No two numbering definitions of one export share a reference. */
  lemma ReferencesDistinct(elements: seq<Element>)
    ensures var configs := ConfigsFrom(elements, 0, 0);
      forall a, b :: 0 <= a < b < |configs| ==> configs[a].reference != configs[b].reference
  {
    var configs := ConfigsFrom(elements, 0, 0);
    var kinds := ListKinds(elements, 0);
    ConfigsMatchLists(elements, 0, 0);
    forall a, b | 0 <= a < b < |configs|
      ensures configs[a].reference != configs[b].reference
    {
      assert configs[a].reference == ListReference(kinds[a], a);
      assert configs[b].reference == ListReference(kinds[b], b);
      if configs[a].reference == configs[b].reference {
        ListReferenceInjective(kinds[a], a, kinds[b], b);
      }
    }
  }

  /** A list becomes one paragraph per item, in order, each numbered with
      the list's own reference. */
  lemma ListRendering(items: seq<string>, isOrdered: bool, counter: nat)
    ensures var r := RenderElement(List(items, isOrdered), counter);
      && |r| == |items|
      && forall k :: 0 <= k < |r| ==> r[k].ListItemPara? && r[k].text == items[k] &&
                                       r[k].reference == ListConfig(isOrdered, counter).reference
  {
  }

  /** A table becomes one Word table: every row padded to the widest row,
      cells kept in place with empty cells after them, only the first row a
      shaded header, and columns of one width. */
  lemma TableRendering(rows: seq<seq<string>>)
    requires |rows| > 0
    ensures var t, m := TableBlockOf(rows), MaxCols(rows);
      && |t.columnWidths| == m && |t.rows| == |rows|
      && (forall c :: 0 <= c < m ==> t.columnWidths[c] == ColumnWidth(m))
      && (forall k :: 0 <= k < |rows| ==>
            && (t.rows[k].isHeader <==> k == 0)
            && |t.rows[k].cells| == m
            && forall c :: 0 <= c < m ==>
                 t.rows[k].cells[c] == Cell(if c < |rows[k]| then rows[k][c] else "", ColumnWidth(m), k == 0, Centred))
  {
    var m := MaxCols(rows);
    var t := TableBlockOf(rows);
    forall k | 0 <= k < |rows|
      ensures (t.rows[k].isHeader <==> k == 0) && |t.rows[k].cells| == m
      ensures forall c :: 0 <= c < m ==>
                 t.rows[k].cells[c] == Cell(if c < |rows[k]| then rows[k][c] else "", ColumnWidth(m), k == 0, Centred)
    {
      assert t.rows[k] == RenderRow(rows[k], k == 0, m, ColumnWidth(m));
      RenderRowShape(rows[k], k == 0, m, ColumnWidth(m));
    }
  }

  /** The columns fill the text width as far as whole units allow. */
  lemma ColumnWidthFills(m: nat)
    requires m > 0
    ensures ColumnWidth(m) * m <= TableWidth < (ColumnWidth(m) + 1) * m
  {
    FloorDivBounds(TableWidth, m);
  }

  /** A rendered row has `maxCols` cells: the row's own, then empty ones. */
  lemma RenderRowShape(row: seq<string>, isHeader: bool, maxCols: nat, width: nat)
    requires |row| <= maxCols
    ensures var r := RenderRow(row, isHeader, maxCols, width);
      && r.isHeader == isHeader && |r.cells| == maxCols
      && forall c :: 0 <= c < maxCols ==>
           r.cells[c] == Cell(if c < |row| then row[c] else "", width, isHeader, Centred)
  {
    PaddedShape(row, maxCols);
  }

  lemma PaddedShape(row: seq<string>, n: nat)
    requires |row| <= n
    ensures |Padded(row, n)| == n
    ensures forall c :: 0 <= c < n ==> Padded(row, n)[c] == if c < |row| then row[c] else ""
  {
  }

  lemma FloorDivBounds(a: nat, m: nat)
    requires m > 0
    ensures (a / m) * m <= a < (a / m + 1) * m
  {
  }

  /** A code block becomes one paragraph per line and a spacer; the lines'
      texts joined again give back the block's content. */
  lemma CodeRendering(content: string, counter: nat)
    ensures var r := RenderElement(Code(content), counter);
      && |r| == |Split(content, '\n')| + 1
      && r[|r| - 1] == Spacer(CodeSpacing)
      && (forall k :: 0 <= k < |r| - 1 ==> r[k].CodeLinePara?)
      && Join(seq(|r| - 1, k requires 0 <= k < |r| - 1 => r[k].text), '\n') == content
  {
    var lines := Split(content, '\n');
    var r := RenderElement(Code(content), counter);
    assert seq(|r| - 1, k requires 0 <= k < |r| - 1 => r[k].text) == lines;
    JoinSplit(content, '\n');
  }

  /** The alignment the exporter gives a content block: a body paragraph
      is justified, every cell of a table is centred, and no block is one of
      the header's lines. */
  predicate ContentAligned(b: Block) {
    && !b.HeaderLine?
    && (b.BodyPara? ==> b.alignment == Justified)
    && (b.TableBlock? ==> forall j, c :: 0 <= j < |b.rows| && 0 <= c < |b.rows[j].cells| ==>
                            b.rows[j].cells[c].alignment == Centred)
  }

  /** Each block one element becomes is aligned as a content block. */
  lemma ElementAligned(e: Element, counter: nat)
    ensures forall k :: 0 <= k < |RenderElement(e, counter)| ==> ContentAligned(RenderElement(e, counter)[k])
  {
    if e.Table? && |e.rows| > 0 {
      var t := TableBlockOf(e.rows);
      forall j, c | 0 <= j < |t.rows| && 0 <= c < |t.rows[j].cells|
        ensures t.rows[j].cells[c].alignment == Centred
      {
        assert t.rows[j] == RenderRow(e.rows[j], j == 0, MaxCols(e.rows), ColumnWidth(MaxCols(e.rows)));
      }
    }
  }

  /** In the rendered content centring comes only from tables: body
      paragraphs are justified, table cells are centred, and none of the
      header's centred lines occurs. */
  lemma {:induction false} RenderAlignment(elements: seq<Element>, i: nat, counter: nat)
    ensures forall k :: 0 <= k < |RenderFrom(elements, i, counter)| ==> ContentAligned(RenderFrom(elements, i, counter)[k])
    decreases |elements| - i
  {
    if i < |elements| {
      RenderAlignment(elements, i + 1, NextCounter(elements[i], counter));
      ElementAligned(elements[i], counter);
      var here: seq<Block>, rest: seq<Block> := RenderElement(elements[i], counter), RenderFrom(elements, i + 1, NextCounter(elements[i], counter));
      forall k | 0 <= k < |here + rest|
        ensures ContentAligned((here + rest)[k])
      {
        if k >= |here| {
          assert (here + rest)[k] == rest[k - |here|];
        }
      }
    }
  }

  /** The numbering definitions the caller supplies; the renderer appends
      one per list. */
  class NumberingConfigList {
    var configs: seq<NumberingConfig>

    constructor()
      ensures configs == []
    {
      configs := [];
    }

    method Push(c: NumberingConfig)
      modifies this
      ensures configs == old(configs) + [c]
    {
      configs := configs + [c];
    }
  }

  /** `elementsToDocxChildren`: one pass over the elements with a counter
      of the lists seen so far. */
  method ElementsToDocxChildren(elements: seq<Element>, numberingConfig: NumberingConfigList) returns (children: seq<Block>)
    modifies numberingConfig
    ensures children == RenderFrom(elements, 0, 0)
    ensures numberingConfig.configs == old(numberingConfig.configs) + ConfigsFrom(elements, 0, 0)
  {
    children := [];
    var listCounter: nat := 0;
    var i := 0;
    while i < |elements|
      invariant 0 <= i <= |elements|
      invariant children + RenderFrom(elements, i, listCounter) == RenderFrom(elements, 0, 0)
      invariant numberingConfig.configs + ConfigsFrom(elements, i, listCounter) ==
                old(numberingConfig.configs) + ConfigsFrom(elements, 0, 0)
    {
      var element := elements[i];
      ghost var configsBefore := numberingConfig.configs;
      var emitted := ElementToDocx(element, listCounter, numberingConfig);
      ChildrenStep(children, emitted, elements, i, listCounter);
      ghost var added := if element.List? then [ListConfig(element.isOrdered, listCounter)] else [];
      ConfigStep(configsBefore, added, elements, i, listCounter);
      children := children + emitted;
      if element.List? {
        listCounter := listCounter + 1;
      }
      i := i + 1;
    }
  }

  /** The `switch` over one element: the blocks it emits at list counter
      `listCounter`, and the numbering definition a list pushes. */
  method ElementToDocx(element: Element, listCounter: nat, numberingConfig: NumberingConfigList) returns (emitted: seq<Block>)
    modifies numberingConfig
    ensures emitted == RenderElement(element, listCounter)
    ensures numberingConfig.configs ==
      old(numberingConfig.configs) + if element.List? then [ListConfig(element.isOrdered, listCounter)] else []
  {
    match element {
      case Heading(level, content) =>
        emitted := [HeadingPara(HeadingStyleOf(level), content)];
      case Paragraph(content) =>
        emitted := [BodyPara(content, Justified)];
      case List(items, isOrdered) =>
        var config := ListConfig(isOrdered, listCounter);
        numberingConfig.Push(config);
        emitted := RenderListItems(items, config.reference);
      case Table(rows) =>
        if |rows| > 0 {
          var table := RenderTable(rows);
          emitted := [table];
        } else {
          emitted := [];
        }
      case Code(content) =>
        emitted := RenderCode(content);
    }
  }

  lemma ChildrenStep(children: seq<Block>, emitted: seq<Block>, elements: seq<Element>, i: nat, counter: nat)
    requires i < |elements|
    requires emitted == RenderElement(elements[i], counter)
    ensures (children + emitted) + RenderFrom(elements, i + 1, NextCounter(elements[i], counter)) ==
            children + RenderFrom(elements, i, counter)
  {
    AppendAssoc(children, emitted, RenderFrom(elements, i + 1, NextCounter(elements[i], counter)));
  }

  lemma ConfigStep(before: seq<NumberingConfig>, added: seq<NumberingConfig>, elements: seq<Element>, i: nat, counter: nat)
    requires i < |elements|
    requires added == if elements[i].List? then [ListConfig(elements[i].isOrdered, counter)] else []
    ensures (before + added) + ConfigsFrom(elements, i + 1, NextCounter(elements[i], counter)) ==
            before + ConfigsFrom(elements, i, counter)
  {
    AppendAssoc(before, added, ConfigsFrom(elements, i + 1, NextCounter(elements[i], counter)));
  }

  method RenderListItems(items: seq<string>, reference: string) returns (paras: seq<Block>)
    ensures paras == ListItems(items, reference)
  {
    paras := [];
    for k := 0 to |items|
      invariant paras == seq(k, j requires 0 <= j < k => ListItemPara(reference, items[j]))
    {
      paras := paras + [ListItemPara(reference, items[k])];
    }
  }

  /** The table of a non-empty list of rows: each row padded, the first
      one the header. */
  method RenderTable(rows: seq<seq<string>>) returns (table: Block)
    requires |rows| > 0
    ensures table == TableBlockOf(rows)
  {
    var maxColCount := MaxCols(rows);
    var colWidth := ColumnWidth(maxColCount);
    var tableRows: seq<Row> := [];
    for rowIndex := 0 to |rows|
      invariant tableRows == seq(rowIndex, k requires 0 <= k < rowIndex => RenderRow(rows[k], k == 0, maxColCount, colWidth))
    {
      var normalizedRow := PadRow(rows[rowIndex], maxColCount);
      var isHeader := rowIndex == 0;
      tableRows := tableRows + [Row(isHeader, CellsOf(normalizedRow, colWidth, isHeader))];
    }
    table := TableBlock(Widths(maxColCount, colWidth), tableRows);
  }

  /** The padding loop: empty cells are appended while the row is short. */
  method PadRow(row: seq<string>, maxColCount: nat) returns (normalizedRow: seq<string>)
    ensures normalizedRow == Padded(row, maxColCount)
  {
    normalizedRow := row;
    while |normalizedRow| < maxColCount
      invariant |row| <= |normalizedRow|
      invariant normalizedRow == row + Blanks(|normalizedRow| - |row|)
      invariant |row| < maxColCount ==> |normalizedRow| <= maxColCount
      invariant |row| >= maxColCount ==> normalizedRow == row
      decreases maxColCount - |normalizedRow|
    {
      BlanksOneMore(|normalizedRow| - |row|);
      normalizedRow := normalizedRow + [""];
    }
  }

  /** A code block: one paragraph per line of its content, then a spacer. */
  method RenderCode(content: string) returns (paras: seq<Block>)
    ensures paras == RenderElement(Code(content), 0)
  {
    var codeLines := Split(content, '\n');
    paras := [];
    for k := 0 to |codeLines|
      invariant paras == seq(k, j requires 0 <= j < k => CodeLinePara(codeLines[j]))
    {
      paras := paras + [CodeLinePara(codeLines[k])];
    }
    paras := paras + [Spacer(CodeSpacing)];
  }

  /** The user's details the header can show; `undefined` and `""` both
      count as missing. */
  datatype HeaderInfo = HeaderInfo(topic: Option<string>, school: Option<string>, location: Option<string>, subject: Option<string>)

  const NationalTitle := "CỘNG HÒA XÃ HỘI CHỦ NGHĨA VIỆT NAM"
  const Motto := "Độc lập - Tự do - Hạnh phúc"
  const Rule := "─────────────────────"
  const ApplicationTitle := "ĐƠN ĐỀ NGHỊ XÉT, CÔNG NHẬN SÁNG KIẾN"
  /** What a field without a value shows, for the user to fill in. */
  const Placeholder := ".........................................................."

  function OrEmpty(o: Option<string>): string {
    if o.Some? then o.value else ""
  }

  /** The user value each known header key is filled from. The applicant's
      name is never known, so it is always empty. */
  function FieldMapping(key: string, info: HeaderInfo): Option<string> {
    if key == "hoTen" then Some("")
    else if key == "tenSangKien" then Some(OrEmpty(info.topic))
    else if key == "donViApDung" then Some(OrEmpty(info.school))
    else if key == "diaDiem" then Some(OrEmpty(info.location))
    else if key == "linhVuc" then Some(OrEmpty(info.subject))
    else None
  }

  /** `fieldMapping[key] || placeholder`: an unknown key or an empty value
      shows the placeholder. */
  function FieldValue(key: string, info: HeaderInfo): (v: string)
    ensures v != []
    ensures v == Placeholder || FieldMapping(key, info) == Some(v)
    ensures FieldMapping(key, info).Some? && FieldMapping(key, info).value != [] ==> v == FieldMapping(key, info).value
    ensures key == "hoTen" ==> v == Placeholder
  {
    var mapped := FieldMapping(key, info);
    if mapped.Some? && mapped.value != "" then mapped.value else Placeholder
  }

  function FixedLines(): seq<Block> {
    [HeaderLine(NationalTitle, true), HeaderLine(Motto, true), HeaderLine(Rule, false)]
  }

  /** `h` is the header for `fields`: the three fixed lines; then, when
      there are fields, the title, one line per field in order with its
      caption and value, and a spacer. */
  predicate IsHeader(h: seq<Block>, fields: seq<(string, string)>, info: HeaderInfo) {
    && |h| == (if |fields| == 0 then 3 else |fields| + 5)
    && h[..3] == FixedLines()
    && (|fields| > 0 ==>
          && h[3] == HeaderLine(ApplicationTitle, true)
          && (forall k :: 0 <= k < |fields| ==> h[4 + k] == FieldLine(fields[k].1, FieldValue(fields[k].0, info)))
          && h[|h| - 1] == Spacer(HeaderSpacing))
  }

  /** `generateSKKNHeader`. The three fixed lines always come first; fields
      add the title, one line per field in order, and a spacer. */
  method GenerateSKKNHeader(headerFields: seq<(string, string)>, info: HeaderInfo) returns (headerParagraphs: seq<Block>)
    ensures IsHeader(headerParagraphs, headerFields, info)
  {
    headerParagraphs := FixedLines();
    var hasHeader := |headerFields| > 0;
    if hasHeader {
      headerParagraphs := headerParagraphs + [HeaderLine(ApplicationTitle, true)];
      for k := 0 to |headerFields|
        invariant |headerParagraphs| == 4 + k
        invariant headerParagraphs[..3] == FixedLines()
        invariant headerParagraphs[3] == HeaderLine(ApplicationTitle, true)
        invariant forall j :: 0 <= j < k ==>
          headerParagraphs[4 + j] == FieldLine(headerFields[j].1, FieldValue(headerFields[j].0, info))
      {
        var (key, caption) := headerFields[k];
        var value := FieldValue(key, info);
        headerParagraphs := headerParagraphs + [FieldLine(caption, value)];
      }
      headerParagraphs := headerParagraphs + [Spacer(HeaderSpacing)];
    }
  }

  /** The header is included when the caller passes non-empty fields and
      the user's details. */
  predicate IncludeHeader(headerFields: Option<seq<(string, string)>>, info: Option<HeaderInfo>) {
    headerFields.Some? && |headerFields.value| > 0 && info.Some?
  }

  /** `exportMarkdownToDocx` up to the document it builds: the body (the
      header, then the rendered Markdown) and the numbering definitions.
      The document starts with a header line exactly when the header is
      included; after the header, body text is justified and table cells
      are centred, so content that opens with a table starts centred
      without a header. */
  method ExportMarkdownToDocx(markdown: string, headerFields: Option<seq<(string, string)>>, info: Option<HeaderInfo>)
    returns (body: seq<Block>, numbering: seq<NumberingConfig>)
    ensures var elements := ParseFrom(Split(markdown, '\n'), 0);
      var headerCount := if IncludeHeader(headerFields, info) then |headerFields.value| + 5 else 0;
      && |body| == headerCount + |RenderFrom(elements, 0, 0)|
      && body[headerCount..] == RenderFrom(elements, 0, 0)
      && numbering == ConfigsFrom(elements, 0, 0)
    ensures IncludeHeader(headerFields, info) ==>
      IsHeader(body[..|headerFields.value| + 5], headerFields.value, info.value)
    ensures (|body| > 0 && body[0].HeaderLine?) <==> IncludeHeader(headerFields, info)
    ensures var headerCount := if IncludeHeader(headerFields, info) then |headerFields.value| + 5 else 0;
      forall k :: headerCount <= k < |body| ==> ContentAligned(body[k])
  {
    var elements := ParseMarkdown(markdown);
    var numberingConfig := new NumberingConfigList();
    var children := ElementsToDocxChildren(elements, numberingConfig);
    var headerParagraphs: seq<Block> := [];
    if IncludeHeader(headerFields, info) {
      headerParagraphs := GenerateSKKNHeader(headerFields.value, info.value);
    }
    body := headerParagraphs + children;
    numbering := numberingConfig.configs;
    RenderAlignment(elements, 0, 0);
    if !IncludeHeader(headerFields, info) && |body| > 0 {
      assert body[0] == children[0];
    }
    if IncludeHeader(headerFields, info) {
      assert body[0] == headerParagraphs[..3][0];
    }
    assert body[|headerParagraphs|..] == children;
    assert body[..|headerParagraphs|] == headerParagraphs;
  }
}
