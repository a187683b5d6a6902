/** The block structure of the Markdown the exporter writes to Word: the
    text is cut into lines, and each line is classified, in this order, as
    blank, a heading, an ordered or bulleted list item, a table row, the
    opening fence of a code block, or a paragraph. Lists, tables and code
    blocks take the run of lines that belongs to them. The regular
    expressions of the classifier are written out character by character. */
module Markdown {
  import opened JsStrings
  import opened Types

  datatype Element =
    | Heading(level: nat, content: string)
    | Paragraph(content: string)
    | List(items: seq<string>, isOrdered: bool)
    | Table(rows: seq<seq<string>>)
    | Code(content: string)

  /** Neither end of `s` is whitespace (what `trim` leaves). */
  predicate Trimmed(s: string) {
    s == [] || (!IsWhitespace(s[0]) && !IsWhitespace(s[|s| - 1]))
  }

  predicate NoLineTerminator(s: string) {
    forall j :: 0 <= j < |s| ==> !IsLineTerminator(s[j])
  }

  /** The end of the run of `#` characters starting at `i`. */
  function HashRun(s: string, i: nat): (k: nat)
    requires i <= |s|
    ensures i <= k <= |s| && (forall j :: i <= j < k ==> s[j] == '#')
    ensures k < |s| ==> s[k] != '#'
    decreases |s| - i
  {
    if i < |s| && s[i] == '#' then HashRun(s, i + 1) else i
  }

  /** The end of the run of decimal digits starting at `i`. */
  function DigitRun(s: string, i: nat): (k: nat)
    requires i <= |s|
    ensures i <= k <= |s| && (forall j :: i <= j < k ==> IsDigit(s[j]))
    ensures k < |s| ==> !IsDigit(s[k])
    decreases |s| - i
  {
    if i < |s| && IsDigit(s[i]) then DigitRun(s, i + 1) else i
  }

  /** `/^(#{1,6})\s+(.+)$/`: one to six `#` (no more may follow, as the
      group cannot end on a `#` before the whitespace), whitespace, and a
      rest without line terminators. The result is the level (the count of
      `#`) and where the content starts, after the whole whitespace run.
      For a line that ends in whitespace the regular expression could still
      match a whitespace rest; trimmed lines, the only ones classified,
      never do. */
  function MatchHeading(line: string): (r: Option<(nat, nat)>)
    ensures r.Some? ==>
      var (level, start) := r.value;
      && 1 <= level <= 6 && level < start < |line|
      && (forall j :: 0 <= j < level ==> line[j] == '#')
      && WhitespaceBetween(line, level, start) && !IsWhitespace(line[start])
      && (forall j :: start <= j < |line| ==> !IsLineTerminator(line[j]))
  {
    var k := HashRun(line, 0);
    if 1 <= k <= 6 && k < |line| && IsWhitespace(line[k]) then
      var m := FirstNonWhitespace(line, k);
      if m < |line| && (forall j :: m <= j < |line| ==> !IsLineTerminator(line[j])) then Some((k, m)) else None
    else None
  }

  /** The converse: `k` hashes, a whitespace run and a text that starts
      with a non-whitespace character and has no line terminator always
      form a heading of level `k` whose content is that text. */
  lemma HeadingLineMatches(k: nat, ws: string, text: string)
    requires 1 <= k <= 6 && ws != [] && WhitespaceBetween(ws, 0, |ws|)
    requires text != [] && !IsWhitespace(text[0]) && NoLineTerminator(text)
    ensures var line := seq(k, _ => '#') + ws + text;
      MatchHeading(line) == Some((k, k + |ws|)) && line[k + |ws|..] == text
  {
    var line := seq(k, _ => '#') + ws + text;
    assert line[k] == ws[0];
    assert line[k + |ws|] == text[0];
    HashRunAt(line, 0, k);
    FirstNonWhitespaceAt(line, k, k + |ws|);
    assert line[k + |ws|..] == text;
  }

  lemma {:induction false} HashRunAt(s: string, i: nat, k: nat)
    requires i <= k < |s| && (forall j :: i <= j < k ==> s[j] == '#') && s[k] != '#'
    ensures HashRun(s, i) == k
    decreases k - i
  {
    if i < k {
      HashRunAt(s, i + 1, k);
    }
  }

  lemma {:induction false} FirstNonWhitespaceAt(s: string, i: nat, k: nat)
    requires i <= k < |s| && WhitespaceBetween(s, i, k) && !IsWhitespace(s[k])
    ensures FirstNonWhitespace(s, i) == k
    decreases k - i
  {
    if i < k {
      FirstNonWhitespaceAt(s, i + 1, k);
    }
  }

  /** `/^\d+\.\s+/`. */
  predicate IsOrderedItem(line: string) {
    var k := DigitRun(line, 0);
    0 < k && k + 1 < |line| && line[k] == '.' && IsWhitespace(line[k + 1])
  }

  /** `/^[-*+]\s+/`. */
  predicate IsBulletItem(line: string) {
    2 <= |line| && (line[0] == '-' || line[0] == '*' || line[0] == '+') && IsWhitespace(line[1])
  }

  /** The item text: the line with its marker and the whitespace after it
      removed (`replace` with the marker pattern). */
  function StripMarker(line: string, ordered: bool): string {
    if ordered && IsOrderedItem(line) then line[FirstNonWhitespace(line, DigitRun(line, 0) + 1)..]
    else if !ordered && IsBulletItem(line) then line[FirstNonWhitespace(line, 1)..]
    else line
  }

  /** The item of a trimmed item line is non-empty and trimmed: the last
      character of the line is not whitespace, so it lies past the marker's
      whitespace. */
  lemma StripMarkerTrimmed(line: string, ordered: bool)
    requires Trimmed(line) && (if ordered then IsOrderedItem(line) else IsBulletItem(line))
    ensures StripMarker(line, ordered) != [] && Trimmed(StripMarker(line, ordered))
  {
    var from := if ordered then DigitRun(line, 0) + 1 else 1;
    var m := FirstNonWhitespace(line, from);
    assert !IsWhitespace(line[|line| - 1]);
    assert m < |line|;
    assert StripMarker(line, ordered) == line[m..];
  }

  /** `/^[-:]+$/`: a cell of a table's separator row. */
  predicate IsSeparatorCell(c: string) {
    |c| > 0 && forall j :: 0 <= j < |c| ==> c[j] == '-' || c[j] == ':'
  }

  /** A cell that survives the filter: non-empty and not a separator. */
  predicate KeptCell(c: string) {
    c != [] && !IsSeparatorCell(c)
  }

  /** `cells.map(trim).filter(keep)`. */
  function KeptCells(cells: seq<string>): (r: seq<string>)
    ensures forall k :: 0 <= k < |r| ==> KeptCell(r[k])
    ensures |r| <= |cells|
  {
    if cells == [] then []
    else
      var c := Trim(cells[0]);
      (if KeptCell(c) then [c] else []) + KeptCells(cells[1..])
  }

  /** The cells of one table line. */
  function RowCells(line: string): seq<string> {
    KeptCells(Split(line, '|'))
  }

  datatype RunKind = OrderedRun | BulletRun | TableRun

  /** A line continues a run: list runs test the trimmed line, the table
      run tests the raw line for `|`. */
  predicate InRun(kind: RunKind, line: string) {
    match kind
    case OrderedRun => IsOrderedItem(Trim(line))
    case BulletRun => IsBulletItem(Trim(line))
    case TableRun => '|' in line
  }

  /** The first line at or after `i` that does not continue the run. */
  function RunEnd(lines: seq<string>, i: nat, kind: RunKind): (j: nat)
    requires i <= |lines|
    ensures i <= j <= |lines| && (forall k :: i <= k < j ==> InRun(kind, lines[k]))
    ensures j < |lines| ==> !InRun(kind, lines[j])
    decreases |lines| - i
  {
    if i < |lines| && InRun(kind, lines[i]) then RunEnd(lines, i + 1, kind) else i
  }

  /** The items of the list lines `i..j`. */
  function RunItems(lines: seq<string>, i: nat, j: nat, ordered: bool): (items: seq<string>)
    requires i <= j <= |lines|
    ensures |items| == j - i
  {
    seq(j - i, k requires 0 <= k < j - i => StripMarker(Trim(lines[i + k]), ordered))
  }

  /** The rows of the table lines `i..j`; a line left without cells adds no row. */
  function TableRows(lines: seq<string>, i: nat, j: nat): (rows: seq<seq<string>>)
    requires i <= j <= |lines|
    ensures forall k :: 0 <= k < |rows| ==> |rows[k]| > 0 && forall c :: 0 <= c < |rows[k]| ==> KeptCell(rows[k][c])
    decreases j - i
  {
    if i == j then []
    else
      var row := RowCells(lines[j - 1]);
      TableRows(lines, i, j - 1) + (if |row| > 0 then [row] else [])
  }

  /** The first line at or after `i` whose trimmed text starts with a fence. */
  function CodeEnd(lines: seq<string>, i: nat): (j: nat)
    requires i <= |lines|
    ensures i <= j <= |lines| && (forall k :: i <= k < j ==> !StartsWith(Trim(lines[k]), "```"))
    ensures j < |lines| ==> StartsWith(Trim(lines[j]), "```")
    decreases |lines| - i
  {
    if i < |lines| && !StartsWith(Trim(lines[i]), "```") then CodeEnd(lines, i + 1) else i
  }

  /** The raw lines `i..j`, each followed by a newline. */
  function CodeText(lines: seq<string>, i: nat, j: nat): string
    requires i <= j <= |lines|
    decreases j - i
  {
    if i == j then "" else CodeText(lines, i, j - 1) + lines[j - 1] + "\n"
  }

  /** Each element carries what its kind needs: a heading level of 1-6
      and text, a non-empty list of non-empty items, a table of non-empty
      rows of kept cells, and trimmed, non-empty paragraph text. */
  predicate WellFormed(e: Element) {
    match e
    case Heading(level, content) => 1 <= level <= 6 && content != [] && Trimmed(content)
    case Paragraph(content) => content != [] && Trimmed(content)
    case List(items, _) => |items| > 0 && forall k :: 0 <= k < |items| ==> items[k] != [] && Trimmed(items[k])
    case Table(rows) => |rows| > 0 && forall k :: 0 <= k < |rows| ==> |rows[k]| > 0 && forall c :: 0 <= c < |rows[k]| ==> KeptCell(rows[k][c])
    case Code(content) => Trimmed(content)
  }

  /** How a trimmed line opens the next element; the order of the tests is
      the precedence: heading, ordered item, bullet item, table, code fence,
      paragraph. */
  datatype LineKind =
    | BlankLine
    | HeadingLine(level: nat, start: nat)
    | OrderedLine
    | BulletLine
    | TableLine
    | FenceLine
    | ParagraphLine

  function Classify(line: string): LineKind {
    if line == "" then BlankLine
    else if MatchHeading(line).Some? then HeadingLine(MatchHeading(line).value.0, MatchHeading(line).value.1)
    else if IsOrderedItem(line) then OrderedLine
    else if IsBulletItem(line) then BulletLine
    else if '|' in line then TableLine
    else if StartsWith(line, "```") then FenceLine
    else ParagraphLine
  }

  /** The list whose item lines are `i..j`. */
  function ListAt(lines: seq<string>, i: nat, j: nat, ordered: bool): Element
    requires i <= j <= |lines|
  {
    List(RunItems(lines, i, j, ordered), ordered)
  }

  /** The table whose lines are `i..j`: none when no row has a cell. */
  function TableAt(lines: seq<string>, i: nat, j: nat): seq<Element>
    requires i <= j <= |lines|
  {
    var rows := TableRows(lines, i, j);
    if |rows| > 0 then [Table(rows)] else []
  }

  /** One turn of the loop at line `i`: the elements it emits and the line
      it continues from. A code block skips its closing fence, and an
      unclosed one runs the cursor one past the end. */
  function Step(lines: seq<string>, i: nat): (r: (seq<Element>, nat))
    requires i < |lines|
    ensures i < r.1 <= |lines| + 1
  {
    var line := Trim(lines[i]);
    match Classify(line)
    case BlankLine => ([], i + 1)
    case HeadingLine(level, start) => ([Heading(level, line[start..])], i + 1)
    case OrderedLine =>
      var j := RunEnd(lines, i, OrderedRun);
      ([ListAt(lines, i, j, true)], j)
    case BulletLine =>
      var j := RunEnd(lines, i, BulletRun);
      ([ListAt(lines, i, j, false)], j)
    case TableLine =>
      TrimKeepsBar(lines[i]);
      var j := RunEnd(lines, i, TableRun);
      (TableAt(lines, i, j), j)
    case FenceLine =>
      var e := CodeEnd(lines, i + 1);
      ([Code(Trim(CodeText(lines, i + 1, e)))], e + 1)
    case ParagraphLine => ([Paragraph(line)], i + 1)
  }

  /** The elements of the lines from `i` on, in line order. */
  function ParseFrom(lines: seq<string>, i: nat): seq<Element>
    decreases |lines| + 1 - i
  {
    if i >= |lines| then [] else Step(lines, i).0 + ParseFrom(lines, Step(lines, i).1)
  }

  /** Every element one step emits is well formed. */
  lemma StepWellFormed(lines: seq<string>, i: nat)
    requires i < |lines|
    ensures AllWellFormed(Step(lines, i).0)
  {
    var line := Trim(lines[i]);
    var emitted := Step(lines, i).0;
    match Classify(line)
    case BlankLine =>
      assert emitted == [];
    case HeadingLine(level, start) =>
      HeadingWellFormed(line);
      assert emitted == [Heading(level, line[start..])];
    case OrderedLine =>
      var j := RunEnd(lines, i, OrderedRun);
      ListWellFormed(lines, i, j, true);
      assert emitted == [ListAt(lines, i, j, true)];
    case BulletLine =>
      var j := RunEnd(lines, i, BulletRun);
      ListWellFormed(lines, i, j, false);
      assert emitted == [ListAt(lines, i, j, false)];
    case TableLine =>
      TrimKeepsBar(lines[i]);
      var j := RunEnd(lines, i, TableRun);
      assert emitted == TableAt(lines, i, j);
    case FenceLine =>
      var e := CodeEnd(lines, i + 1);
      assert emitted == [Code(Trim(CodeText(lines, i + 1, e)))];
    case ParagraphLine =>
      assert emitted == [Paragraph(line)];
  }

  lemma HeadingWellFormed(line: string)
    requires Trimmed(line) && MatchHeading(line).Some?
    ensures WellFormed(Heading(MatchHeading(line).value.0, line[MatchHeading(line).value.1..]))
  {
    var start := MatchHeading(line).value.1;
    assert line[start..][0] == line[start];
    assert line[start..][|line| - start - 1] == line[|line| - 1];
  }

  lemma ListWellFormed(lines: seq<string>, i: nat, j: nat, ordered: bool)
    requires i < j <= |lines|
    requires forall k :: i <= k < j ==> InRun(if ordered then OrderedRun else BulletRun, lines[k])
    ensures WellFormed(ListAt(lines, i, j, ordered))
  {
    var items := RunItems(lines, i, j, ordered);
    forall k | 0 <= k < |items|
      ensures items[k] != [] && Trimmed(items[k])
    {
      var line := Trim(lines[i + k]);
      assert InRun(if ordered then OrderedRun else BulletRun, lines[i + k]);
      assert items[k] == StripMarker(line, ordered);
      assert Trimmed(line);
      StripMarkerTrimmed(line, ordered);
    }
  }

  /** Every element the parser emits is well formed. */
  lemma {:induction false} ParseFromWellFormed(lines: seq<string>, i: nat)
    ensures AllWellFormed(ParseFrom(lines, i))
    decreases |lines| + 1 - i
  {
    if i < |lines| {
      StepWellFormed(lines, i);
      ParseFromWellFormed(lines, Step(lines, i).1);
      AllWellFormedConcat(Step(lines, i).0, ParseFrom(lines, Step(lines, i).1));
    }
  }

  predicate AllWellFormed(es: seq<Element>) {
    forall k :: 0 <= k < |es| ==> WellFormed(es[k])
  }

  lemma AllWellFormedConcat(a: seq<Element>, b: seq<Element>)
    requires AllWellFormed(a) && AllWellFormed(b)
    ensures AllWellFormed(a + b)
  {
    forall k | 0 <= k < |a + b|
      ensures WellFormed((a + b)[k])
    {
      if k < |a| {
        assert (a + b)[k] == a[k];
      } else {
        assert (a + b)[k] == b[k - |a|];
      }
    }
  }

  /** Trimming keeps every `|` of the line. */
  lemma TrimKeepsBar(s: string)
    ensures '|' in Trim(s) ==> '|' in s
  {
    var a, b := TrimBounds(s);
    if '|' in Trim(s) {
      var k :| 0 <= k < |Trim(s)| && Trim(s)[k] == '|';
      assert s[a + k] == '|';
    }
  }

  lemma AppendAssoc<T>(a: seq<T>, b: seq<T>, c: seq<T>)
    ensures a + (b + c) == (a + b) + c
  {
  }

  /** `parseMarkdown`: a loop over the lines of the text with a cursor that
      each branch advances by at least one line. */
  method ParseMarkdown(markdown: string) returns (elements: seq<Element>)
    ensures elements == ParseFrom(Split(markdown, '\n'), 0)
    ensures AllWellFormed(elements)
  {
    var lines := Split(markdown, '\n');
    elements := [];
    var i: nat := 0;
    while i < |lines|
      invariant i <= |lines| + 1
      invariant elements + ParseFrom(lines, i) == ParseFrom(lines, 0)
      decreases |lines| + 1 - i
    {
      var emitted, next := ParseLine(lines, i);
      AppendAssoc(elements, emitted, ParseFrom(lines, next));
      elements := elements + emitted;
      i := next;
    }
    ParseFromWellFormed(lines, 0);
  }

  /** The body of the loop at line `i`: the branch the trimmed line selects. */
  method ParseLine(lines: seq<string>, i: nat) returns (emitted: seq<Element>, next: nat)
    requires i < |lines|
    ensures emitted == Step(lines, i).0 && next == Step(lines, i).1
  {
    var line := Trim(lines[i]);
    var heading := MatchHeading(line);
    if line == "" {
      StepLineCases(lines, i);
      emitted, next := [], i + 1;
    } else if heading.Some? {
      StepLineCases(lines, i);
      emitted, next := [Heading(heading.value.0, line[heading.value.1..])], i + 1;
    } else if IsOrderedItem(line) {
      StepListCases(lines, i);
      var items, j := CollectItems(lines, i, true);
      emitted, next := [List(items, true)], j;
    } else if IsBulletItem(line) {
      StepListCases(lines, i);
      var items, j := CollectItems(lines, i, false);
      emitted, next := [List(items, false)], j;
    } else if '|' in line {
      StepTableCase(lines, i);
      var rows, j := CollectRows(lines, i);
      emitted, next := if |rows| > 0 then [Table(rows)] else [], j;
    } else if StartsWith(line, "```") {
      StepCodeCase(lines, i);
      var codeContent, e := CollectCode(lines, i + 1);
      // The closing fence is skipped, or the cursor passes the end.
      emitted, next := [Code(Trim(codeContent))], e + 1;
    } else {
      StepLineCases(lines, i);
      emitted, next := [Paragraph(line)], i + 1;
    }
  }

  /** `Step` by the tests of the loop body, in their order: the lines that
      make one element of their own (blank, heading, paragraph). */
  lemma StepLineCases(lines: seq<string>, i: nat)
    requires i < |lines|
    ensures var line := Trim(lines[i]);
      var heading := MatchHeading(line);
      && (line == "" ==> Step(lines, i) == ([], i + 1))
      && (line != "" && heading.Some? ==>
            Step(lines, i) == ([Heading(heading.value.0, line[heading.value.1..])], i + 1))
      && (line != "" && heading.None? && !IsOrderedItem(line) && !IsBulletItem(line) && '|' !in line && !StartsWith(line, "```") ==>
            Step(lines, i) == ([Paragraph(line)], i + 1))
  {
    var line := Trim(lines[i]);
    if line == "" {
      assert Classify(line) == BlankLine;
    } else if MatchHeading(line).Some? {
      assert Classify(line) == HeadingLine(MatchHeading(line).value.0, MatchHeading(line).value.1);
    } else if !IsOrderedItem(line) && !IsBulletItem(line) && '|' !in line && !StartsWith(line, "```") {
      assert Classify(line) == ParagraphLine;
    }
  }

  /** `Step` by the tests of the loop body, in their order: the lines that
      open a list, which runs over the following item lines. */
  lemma StepListCases(lines: seq<string>, i: nat)
    requires i < |lines|
    ensures var line := Trim(lines[i]);
      var heading := MatchHeading(line);
      && (line != "" && heading.None? && IsOrderedItem(line) ==>
            Step(lines, i) == ([ListAt(lines, i, RunEnd(lines, i, OrderedRun), true)], RunEnd(lines, i, OrderedRun)))
      && (line != "" && heading.None? && !IsOrderedItem(line) && IsBulletItem(line) ==>
            Step(lines, i) == ([ListAt(lines, i, RunEnd(lines, i, BulletRun), false)], RunEnd(lines, i, BulletRun)))
  {
    var line := Trim(lines[i]);
    if line != "" && MatchHeading(line).None? {
      if IsOrderedItem(line) {
        assert Classify(line) == OrderedLine;
      } else if IsBulletItem(line) {
        assert Classify(line) == BulletLine;
      }
    }
  }

  /** `Step` by the tests of the loop body, in their order: a line holding
      `|` opens a table, which runs over the following lines holding `|`. */
  lemma StepTableCase(lines: seq<string>, i: nat)
    requires i < |lines|
    ensures var line := Trim(lines[i]);
      line != "" && MatchHeading(line).None? && !IsOrderedItem(line) && !IsBulletItem(line) && '|' in line ==>
        '|' in lines[i] && Step(lines, i) == (TableAt(lines, i, RunEnd(lines, i, TableRun)), RunEnd(lines, i, TableRun))
  {
    var line := Trim(lines[i]);
    if line != "" && MatchHeading(line).None? && !IsOrderedItem(line) && !IsBulletItem(line) && '|' in line {
      TrimKeepsBar(lines[i]);
      assert Classify(line) == TableLine;
    }
  }

  /** `Step` by the tests of the loop body, in their order: a fence opens a
      code block, which runs to the closing fence. */
  lemma StepCodeCase(lines: seq<string>, i: nat)
    requires i < |lines|
    ensures var line := Trim(lines[i]);
      line != "" && MatchHeading(line).None? && !IsOrderedItem(line) && !IsBulletItem(line) && '|' !in line && StartsWith(line, "```") ==>
        Step(lines, i) == ([Code(Trim(CodeText(lines, i + 1, CodeEnd(lines, i + 1))))], CodeEnd(lines, i + 1) + 1)
  {
    var line := Trim(lines[i]);
    if line != "" && MatchHeading(line).None? && !IsOrderedItem(line) && !IsBulletItem(line) && '|' !in line && StartsWith(line, "```") {
      assert Classify(line) == FenceLine;
    }
  }

  lemma RunItemsExtend(lines: seq<string>, i: nat, j: nat, ordered: bool)
    requires i <= j < |lines|
    ensures RunItems(lines, i, j + 1, ordered) == RunItems(lines, i, j, ordered) + [StripMarker(Trim(lines[j]), ordered)]
  {
  }

  /** The inner loop of a list: consecutive item lines, markers stripped. */
  method CollectItems(lines: seq<string>, i: nat, ordered: bool) returns (items: seq<string>, j: nat)
    requires i < |lines| && InRun(if ordered then OrderedRun else BulletRun, lines[i])
    ensures j == RunEnd(lines, i, if ordered then OrderedRun else BulletRun) && i < j
    ensures items == RunItems(lines, i, j, ordered)
  {
    var kind := if ordered then OrderedRun else BulletRun;
    items := [];
    j := i;
    while j < |lines| && InRun(kind, lines[j])
      invariant i <= j <= |lines|
      invariant RunEnd(lines, j, kind) == RunEnd(lines, i, kind)
      invariant items == RunItems(lines, i, j, ordered)
      decreases |lines| - j
    {
      RunItemsExtend(lines, i, j, ordered);
      items := items + [StripMarker(Trim(lines[j]), ordered)];
      j := j + 1;
    }
  }

  lemma TableRowsExtend(lines: seq<string>, i: nat, j: nat)
    requires i <= j < |lines|
    ensures var row := RowCells(lines[j]);
      TableRows(lines, i, j + 1) == TableRows(lines, i, j) + (if |row| > 0 then [row] else [])
  {
  }

  /** The inner loop of a table: the rows of consecutive lines holding `|`. */
  method CollectRows(lines: seq<string>, i: nat) returns (rows: seq<seq<string>>, j: nat)
    requires i < |lines| && '|' in lines[i]
    ensures j == RunEnd(lines, i, TableRun) && i < j
    ensures rows == TableRows(lines, i, j)
  {
    rows := [];
    j := i;
    ghost var end := RunEnd(lines, i, TableRun);
    assert InRun(TableRun, lines[i]);
    assert i < end;
    while j < |lines| && '|' in lines[j]
      invariant i <= j <= end
      invariant RunEnd(lines, j, TableRun) == end
      invariant rows == TableRows(lines, i, j)
      decreases |lines| - j
    {
      assert InRun(TableRun, lines[j]);
      var row := RowCells(lines[j]);
      TableRowsExtend(lines, i, j);
      rows := rows + (if |row| > 0 then [row] else []);
      j := j + 1;
    }
    assert j == end;
  }

  /** The inner loop of a code block: raw lines up to the closing fence. */
  method CollectCode(lines: seq<string>, i: nat) returns (codeContent: string, e: nat)
    requires i <= |lines|
    ensures e == CodeEnd(lines, i)
    ensures codeContent == CodeText(lines, i, e)
  {
    codeContent := "";
    e := i;
    while e < |lines| && !StartsWith(Trim(lines[e]), "```")
      invariant i <= e <= |lines|
      invariant CodeEnd(lines, e) == CodeEnd(lines, i)
      invariant codeContent == CodeText(lines, i, e)
      decreases |lines| - e
    {
      codeContent := codeContent + lines[e] + "\n";
      e := e + 1;
    }
  }

  /** The parser emits at most one element per line. */
  lemma {:induction false} ParseFromBound(lines: seq<string>, i: nat)
    ensures |ParseFrom(lines, i)| <= if i <= |lines| then |lines| - i else 0
    decreases |lines| + 1 - i
  {
    if i < |lines| {
      ParseFromBound(lines, Step(lines, i).1);
      StepEmitsAtMostOne(lines, i);
    }
  }

  lemma StepEmitsAtMostOne(lines: seq<string>, i: nat)
    requires i < |lines|
    ensures |Step(lines, i).0| <= 1
  {
    StepLineCases(lines, i);
    StepListCases(lines, i);
    StepTableCase(lines, i);
    StepCodeCase(lines, i);
  }

  /** Every line from `i` on is neither blank nor opens a block. */
  predicate PlainFrom(lines: seq<string>, i: nat)
    decreases |lines| - i
  {
    i >= |lines| || (Classify(Trim(lines[i])) == ParagraphLine && PlainFrom(lines, i + 1))
  }

  /** Lines that are neither blank nor open any block each become a
      paragraph of their trimmed text. */
  lemma {:induction false} PlainLinesAreParagraphs(lines: seq<string>, i: nat)
    requires i <= |lines| && PlainFrom(lines, i)
    ensures ParagraphsOf(ParseFrom(lines, i), lines, i)
    decreases |lines| - i
  {
    if i < |lines| {
      var line := Trim(lines[i]);
      assert Step(lines, i) == ([Paragraph(line)], i + 1);
      PlainLinesAreParagraphs(lines, i + 1);
      ParagraphsCons(ParseFrom(lines, i + 1), lines, i);
    }
  }

  /** `es` holds one paragraph per line from `i` on, of its trimmed text. */
  predicate ParagraphsOf(es: seq<Element>, lines: seq<string>, i: nat)
    requires i <= |lines|
  {
    |es| == |lines| - i && forall k :: 0 <= k < |es| ==> es[k] == Paragraph(Trim(lines[i + k]))
  }

  lemma ParagraphsCons(rest: seq<Element>, lines: seq<string>, i: nat)
    requires i < |lines| && ParagraphsOf(rest, lines, i + 1)
    ensures ParagraphsOf([Paragraph(Trim(lines[i]))] + rest, lines, i)
  {
    var whole := [Paragraph(Trim(lines[i]))] + rest;
    forall k | 0 <= k < |whole|
      ensures whole[k] == Paragraph(Trim(lines[i + k]))
    {
      if k > 0 {
        assert whole[k] == rest[k - 1];
        assert i + 1 + (k - 1) == i + k;
      }
    }
  }

  /** Seven `#` are more than a heading allows: the line is a paragraph. */
  lemma SevenHashesIsParagraph()
    ensures Classify("####### x") == ParagraphLine
  {
    assert HashRun("####### x", 0) == 7 by { HashRunAt("####### x", 0, 7); }
  }

  /** A heading line wins over the table test even when it holds `|`. */
  lemma HeadingBeforeTable()
    ensures Classify("## a | b") == HeadingLine(2, 3)
  {
    HeadingLineMatches(2, " ", "a | b");
    assert seq(2, _ => '#') + " " + "a | b" == "## a | b";
  }

  /** A line whose cells are all blank or separators keeps no cell, so it
      adds no row to its table. */
  lemma {:induction false} NoKeptCellNoCells(cells: seq<string>)
    requires forall k :: 0 <= k < |cells| ==> !KeptCell(Trim(cells[k]))
    ensures KeptCells(cells) == []
    decreases |cells|
  {
    if cells != [] {
      assert !KeptCell(Trim(cells[0]));
      NoKeptCellNoCells(cells[1..]);
    }
  }

  /** A cell that keeps something is kept, trimmed, in its place. */
  lemma KeptCellsKeepsFirst(c: string, cells: seq<string>)
    requires KeptCell(Trim(c))
    ensures KeptCells([c] + cells) == [Trim(c)] + KeptCells(cells)
  {
    assert ([c] + cells)[1..] == cells;
  }

  /** The separator row of a table: its cells are blank or separators. */
  lemma SeparatorCellsAreDropped()
    ensures KeptCells(["", "---", ":-:", ""]) == []
  {
    assert IsSeparatorCell("---") && IsSeparatorCell(":-:");
    NoKeptCellNoCells(["", "---", ":-:", ""]);
  }

  /** A code block without a closing fence takes every remaining line and
      moves the cursor past the end, which ends the parse. */
  lemma UnclosedCodeBlockRunsToEnd(lines: seq<string>, i: nat)
    requires i < |lines| && Classify(Trim(lines[i])) == FenceLine
    requires forall k :: i < k < |lines| ==> !StartsWith(Trim(lines[k]), "```")
    ensures |ParseFrom(lines, i)| == 1
    ensures ParseFrom(lines, i)[0] == Code(Trim(CodeText(lines, i + 1, |lines|)))
  {
    assert CodeEnd(lines, i + 1) == |lines|;
    assert Step(lines, i).1 == |lines| + 1;
    assert |Step(lines, i).0| == 1;
    assert Step(lines, i).0[0] == Code(Trim(CodeText(lines, i + 1, |lines|)));
    assert ParseFrom(lines, |lines| + 1) == [];
    assert ParseFrom(lines, i) == Step(lines, i).0 + [];
  }
}
