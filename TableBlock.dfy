/** The table serializer (GitHub Flavored Markdown tables, section 4.10 of
    the GFM specification, without pipe escaping): the first `table_row`
    child is the header, a delimiter row follows with one `---` per header
    cell, then the other rows in order. */
module TableBlock {
  import opened Strings
  import opened RichText
  import opened Blocks

  /** The cells of one row, each rendered as rich text. */
  function RowCells(cells: seq<seq<Span>>): (r: seq<string>)
    ensures |r| == |cells|
    ensures forall j :: 0 <= j < |r| ==> r[j] == RichTextMarkdown(cells[j])
  {
    seq(|cells|, j requires 0 <= j < |cells| => RichTextMarkdown(cells[j]))
  }

  /** The rendered rows of the `table_row` children, in order; other
      children are skipped. */
  function TableRows(children: seq<Block>): seq<seq<string>>
  {
    if children == [] then []
    else
      var last := children[|children| - 1];
      TableRows(children[..|children| - 1])
        + (if last.kind.TableRow? then [RowCells(last.kind.cells)] else [])
  }

  /** One table line: `| a | b | c |`. */
  function RowLine(cells: seq<string>): string
  {
    "| " + Join(cells, " | ") + " |"
  }

  /** The delimiter row's cells: one `---` per column. */
  function Dashes(n: nat): (r: seq<string>)
    ensures |r| == n && forall j :: 0 <= j < n ==> r[j] == "---"
  {
    seq(n, _ => "---")
  }

  /** The lines of a table with at least one row. */
  function TableLines(rows: seq<seq<string>>): (r: seq<string>)
    requires |rows| > 0
    ensures |r| == |rows| + 1
  {
    [RowLine(rows[0]), RowLine(Dashes(|rows[0]|))]
      + seq(|rows| - 1, k requires 0 <= k < |rows| - 1 => RowLine(rows[k + 1]))
  }

  /** The Markdown of a table block with these children. */
  function TableMarkdown(children: seq<Block>): string
  {
    var rows := TableRows(children);
    if |rows| == 0 then "" else Join(TableLines(rows), "\n")
  }

  /** `fromNotionTableBlock`: collect the rows, then push the header, the
      delimiter row and the body lines, and join them. */
  method FromNotionTableBlock(children: seq<Block>) returns (markdown: string)
    ensures markdown == TableMarkdown(children)
  {
    if |children| == 0 {
      return "";
    }
    var rows: seq<seq<string>> := [];
    for i := 0 to |children|
      invariant rows == TableRows(children[..i])
    {
      assert children[..i + 1][..i] == children[..i];
      var child := children[i];
      if !child.kind.TableRow? {
        continue;
      }
      var cells: seq<string> := [];
      for j := 0 to |child.kind.cells|
        invariant |cells| == j
        invariant forall m :: 0 <= m < j ==> cells[m] == RichTextMarkdown(child.kind.cells[m])
      {
        var cell := FromNotionRichTextItem(child.kind.cells[j]);
        cells := cells + [cell];
      }
      assert cells == RowCells(child.kind.cells);
      rows := rows + [cells];
    }
    assert children[..|children|] == children;
    if |rows| == 0 {
      return "";
    }
    var headerRow := rows[0];
    var lines: seq<string> := [];
    lines := lines + [RowLine(headerRow)];
    lines := lines + [RowLine(Dashes(|headerRow|))];
    for i := 1 to |rows|
      invariant lines == TableLines(rows[..i])
    {
      assert TableLines(rows[..i + 1]) == TableLines(rows[..i]) + [RowLine(rows[i])];
      lines := lines + [RowLine(rows[i])];
    }
    assert rows[..|rows|] == rows;
    markdown := Join(lines, "\n");
  }

  // ---------------------------------------------------------------------
  // Properties of the table rendering

  /** Collecting rows distributes over concatenation of the children. */
  lemma {:induction false} TableRowsAppend(a: seq<Block>, b: seq<Block>)
    ensures TableRows(a + b) == TableRows(a) + TableRows(b)
  {
    if b == [] {
      assert a + b == a;
    } else {
      var ab := a + b;
      assert ab[..|ab| - 1] == a + b[..|b| - 1];
      assert ab[|ab| - 1] == b[|b| - 1];
      TableRowsAppend(a, b[..|b| - 1]);
    }
  }

  /** A table with no `table_row` child renders as nothing. */
  lemma {:induction false} TableWithoutRows(children: seq<Block>)
    requires forall i :: 0 <= i < |children| ==> !children[i].kind.TableRow?
    ensures TableRows(children) == []
    ensures TableMarkdown(children) == ""
  {
    if children != [] {
      TableWithoutRows(children[..|children| - 1]);
    }
  }

  /** Inserting a child that is not a row, anywhere, changes nothing. */
  lemma TableSkipsNonRows(a: seq<Block>, x: Block, b: seq<Block>)
    requires !x.kind.TableRow?
    ensures TableRows(a + [x] + b) == TableRows(a + b)
    ensures TableMarkdown(a + [x] + b) == TableMarkdown(a + b)
  {
    assert [x][..0] == [];
    assert TableRows([x]) == [];
    TableRowsAppend(a, [x]);
    TableRowsAppend(a + [x], b);
    TableRowsAppend(a, b);
  }

  /** The rows keep the order of the children: appending a row child
      appends its rendered cells. */
  lemma TableRowsAppendRow(a: seq<Block>, x: Block)
    requires x.kind.TableRow?
    ensures TableRows(a + [x]) == TableRows(a) + [RowCells(x.kind.cells)]
  {
    var ax := a + [x];
    assert ax[..|ax| - 1] == a;
  }

  /** A table line holds no newline when its cells hold none. */
  lemma RowLineAvoids(cells: seq<string>)
    requires forall c :: 0 <= c < |cells| ==> '\n' !in cells[c]
    ensures '\n' !in RowLine(cells)
  {
    JoinAvoids(cells, " | ", '\n');
  }

  /** The lines of a table, one by one: the header, the delimiter row with
      one `---` per header cell, then the body rows. */
  lemma TableLinesAt(rows: seq<seq<string>>)
    requires |rows| > 0
    ensures TableLines(rows)[0] == RowLine(rows[0])
    ensures TableLines(rows)[1] == RowLine(Dashes(|rows[0]|))
    ensures forall k :: 1 <= k < |rows| ==> TableLines(rows)[k + 1] == RowLine(rows[k])
  {
  }

  /** No line of a table holds a newline when no cell does. */
  lemma TableLinesAvoid(rows: seq<seq<string>>)
    requires |rows| > 0
    requires forall r :: 0 <= r < |rows| ==> forall c :: 0 <= c < |rows[r]| ==> '\n' !in rows[r][c]
    ensures forall k :: 0 <= k < |TableLines(rows)| ==> '\n' !in TableLines(rows)[k]
  {
    var lines := TableLines(rows);
    TableLinesAt(rows);
    RowLineAvoids(rows[0]);
    RowLineAvoids(Dashes(|rows[0]|));
    forall k | 2 <= k < |lines| ensures '\n' !in lines[k] {
      RowLineAvoids(rows[k - 1]);
    }
  }

  /** When no cell holds a newline, the output has one line per row plus the
      delimiter row, with no trailing newline: the header, then one `---`
      per header cell whatever the width of the other rows, then the body
      rows in order. */
  lemma TableLinesShape(children: seq<Block>, rows: seq<seq<string>>)
    requires rows == TableRows(children) && rows != []
    requires forall r :: 0 <= r < |rows| ==> forall c :: 0 <= c < |rows[r]| ==> '\n' !in rows[r][c]
    ensures Lines(TableMarkdown(children)) == TableLines(rows)
    ensures |Lines(TableMarkdown(children))| == |rows| + 1
    ensures Lines(TableMarkdown(children))[0] == RowLine(rows[0])
    ensures Lines(TableMarkdown(children))[1] == RowLine(Dashes(|rows[0]|))
    ensures forall k :: 1 <= k < |rows| ==> Lines(TableMarkdown(children))[k + 1] == RowLine(rows[k])
  {
    TableLinesAvoid(rows);
    TableLinesAt(rows);
    SplitJoinNoSep(TableLines(rows), '\n');
  }

  /** The delimiter row of a three-column table. */
  lemma ThreeColumnDelimiter()
    ensures RowLine(Dashes(3)) == "| --- | --- | --- |"
  {
    assert Dashes(3) == ["---", "---", "---"];
    JoinThree("---", "---", "---", " | ");
    assert "| " + ("---" + " | " + "---" + " | " + "---") + " |" == "| --- | --- | --- |";
  }
}
