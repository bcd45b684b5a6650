/** Concrete blocks and the exact Markdown the serializers give them, as the
    repository's tests expect. Each test case is first proved for any
    one-line texts, then for the test's own strings. */
module Examples {
  import opened Strings
  import opened RichText
  import opened Blocks
  import opened LeafBlocks
  import opened TableBlock
  import opened Containers
  import opened Serializer

  /** A paragraph of one plain span. */
  function Para(id: string, t: string): Block
  {
    Block(id, Paragraph([Plain(t)]), [])
  }

  /** A plain span renders as its text, alone or as the only span. */
  lemma PlainText(t: string)
    ensures RichTextMarkdown([Plain(t)]) == t
  {
    RichTextSingle(Plain(t));
  }

  /** A paragraph of one plain span renders as its text. */
  lemma ParaText(id: string, t: string)
    ensures FromNotionBlock(Para(id, t)) == t
  {
    PlainText(t);
  }

  /** The children's Markdown of a single child. */
  lemma OneChild(c: Block)
    ensures FromNotionBlocks([c]) == [FromNotionBlock(c)]
  {
    assert [c][1..] == [];
  }

  /** The children's Markdown of two children. */
  lemma TwoChildren(c: Block, d: Block)
    ensures FromNotionBlocks([c, d]) == [FromNotionBlock(c), FromNotionBlock(d)]
  {
    assert [c, d][1..] == [d];
    OneChild(d);
  }

  /** The children's Markdown of one paragraph. */
  lemma OneParagraph(pid: string, c: string)
    ensures FromNotionBlocks([Para(pid, c)]) == [c]
  {
    ParaText(pid, c);
    OneChild(Para(pid, c));
  }

  // ---------------------------------------------------------------------
  // Callout

  /** A callout with an emoji icon and one paragraph child, all single
      lines: the emoji, a space and the text behind `> `, then the child
      behind `> `. */
  lemma CalloutWithParagraph(id: string, e: string, t: string, pid: string, c: string)
    requires e != "" && c != ""
    requires '\n' !in e && '\n' !in t && '\n' !in c
    ensures FromNotionBlock(Block(id, Callout([Plain(t)], Emoji(e)), [Para(pid, c)]))
      == "> " + e + " " + t + "\n" + "> " + c
  {
    CalloutDispatch(id, [Plain(t)], Emoji(e), [Para(pid, c)]);
    OneParagraph(pid, c);
    CalloutOneLineChild(e, t, c);
  }

  /** The layout of a callout with an emoji, a plain one-line text and one
      one-line child. */
  lemma CalloutOneLineChild(e: string, t: string, c: string)
    requires e != "" && c != ""
    requires '\n' !in e && '\n' !in t && '\n' !in c
    ensures FromNotionCalloutBlock([Plain(t)], Emoji(e), [c]) == "> " + e + " " + t + "\n" + "> " + c
  {
    PlainText(t);
    var content := e + " " + t;
    assert '\n' !in content;
    QuoteOneLineChild(content, c);
    AppendAssoc("> " + e, " ", t);
    AppendAssoc("> ", e, " " + t);
    AppendAssoc("> ", e + " ", t);
    AppendAssoc(e, " ", t);
  }

  /** The strings of the callout test. */
  lemma CalloutLiterals()
    ensures "> " + "📝" + " " + "親コールアウト" + "\n" + "> " + "子要素のテキスト" == "> 📝 親コールアウト\n> 子要素のテキスト"
    ensures '\n' !in "📝" && '\n' !in "親コールアウト" && '\n' !in "子要素のテキスト"
  {
  }

  /** lib/from-notion-block/from-notion-callout-block.test.ts:177. */
  lemma CalloutWithChildExample(b: Block)
    requires b == Block("c", Callout([Plain("親コールアウト")], Emoji("📝")), [Para("p", "子要素のテキスト")])
    ensures FromNotionBlock(b) == "> 📝 親コールアウト\n> 子要素のテキスト"
  {
    CalloutLiterals();
    CalloutWithParagraph("c", "📝", "親コールアウト", "p", "子要素のテキスト");
  }

  /** A callout without children, with a one-line icon text and rich text:
      one line behind `> `. */
  lemma CalloutWithoutChildren(id: string, icon: Icon, t: string)
    requires '\n' !in ExtractIconText(icon) && '\n' !in t
    ensures FromNotionBlock(Block(id, Callout([Plain(t)], icon), [])) == "> " + CalloutContent(icon, t)
  {
    CalloutDispatch(id, [Plain(t)], icon, []);
    PlainText(t);
    assert '\n' !in CalloutContent(icon, t);
    PrefixLinesSingle("> ", CalloutContent(icon, t));
  }

  /** The strings of the callout tests without children. */
  lemma CalloutWithoutChildrenLiterals()
    ensures "> " + ("💡" + " " + "これは重要な情報です") == "> 💡 これは重要な情報です"
    ensures "> " + "アイコンなしの情報" == "> アイコンなしの情報"
    ensures '\n' !in "💡" && '\n' !in "これは重要な情報です" && '\n' !in "アイコンなしの情報"
  {
  }

  /** lib/from-notion-block/from-notion-callout-block.test.ts:61: an emoji
      icon. */
  lemma CalloutWithEmojiExample(b: Block)
    requires b == Block("c", Callout([Plain("これは重要な情報です")], Emoji("💡")), [])
    ensures FromNotionBlock(b) == "> 💡 これは重要な情報です"
  {
    CalloutWithoutChildrenLiterals();
    CalloutWithoutChildren("c", Emoji("💡"), "これは重要な情報です");
  }

  /** lib/from-notion-block/from-notion-callout-block.test.ts:94: no icon. */
  lemma CalloutWithoutIconExample(b: Block)
    requires b == Block("c", Callout([Plain("アイコンなしの情報")], NoIcon), [])
    ensures FromNotionBlock(b) == "> アイコンなしの情報"
  {
    CalloutWithoutChildrenLiterals();
    CalloutWithoutChildren("c", NoIcon, "アイコンなしの情報");
  }

  // ---------------------------------------------------------------------
  // Quote

  /** A quote whose text has three lines puts `> ` before each of them. */
  lemma QuoteOfThreeLines(q: Block, a: string, b: string, c: string)
    requires q.kind == Quote([Plain(a + "\n" + b + "\n" + c)]) && q.children == []
    requires '\n' !in a && '\n' !in b && '\n' !in c
    ensures FromNotionBlock(q) == "> " + a + "\n" + "> " + b + "\n" + "> " + c
  {
    QuoteOfPlainText(q.id, a + "\n" + b + "\n" + c);
    ThreeLinesQuoted(a, b, c);
  }

  /** Three newline-free lines, each behind `> `. */
  lemma ThreeLinesQuoted(a: string, b: string, c: string)
    requires '\n' !in a && '\n' !in b && '\n' !in c
    ensures PrefixLines("> ", a + "\n" + b + "\n" + c) == "> " + a + "\n" + "> " + b + "\n" + "> " + c
  {
    LinesOfThree(a, b, c);
    assert PrefixAll("> ", [a, b, c]) == ["> " + a, "> " + b, "> " + c];
    JoinThree("> " + a, "> " + b, "> " + c, "\n");
  }

  lemma QuoteOfPlainText(id: string, s: string)
    ensures FromNotionBlock(Block(id, Quote([Plain(s)]), [])) == PrefixLines("> ", s)
  {
    PlainText(s);
  }

  /** Three newline-free strings joined by newlines are three lines. */
  lemma LinesOfThree(a: string, b: string, c: string)
    requires '\n' !in a && '\n' !in b && '\n' !in c
    ensures Lines(a + "\n" + b + "\n" + c) == [a, b, c]
  {
    LinesAppend(a + "\n" + b, c);
    LinesAppend(a, b);
    SplitNoSep(a, '\n');
    SplitNoSep(b, '\n');
    SplitNoSep(c, '\n');
  }

  /** The strings of the multi-line quote test. */
  lemma MultilineQuoteLiterals()
    ensures "1行目" + "\n" + "2行目" + "\n" + "3行目" == "1行目\n2行目\n3行目"
    ensures "> " + "1行目" + "\n" + "> " + "2行目" + "\n" + "> " + "3行目" == "> 1行目\n> 2行目\n> 3行目"
    ensures '\n' !in "1行目" && '\n' !in "2行目" && '\n' !in "3行目"
  {
  }

  /** lib/from-notion-block/from-notion-quote-block.test.ts:89. */
  lemma MultilineQuoteExample(b: Block)
    requires b == Block("q", Quote([Plain("1行目\n2行目\n3行目")]), [])
    ensures FromNotionBlock(b) == "> 1行目\n> 2行目\n> 3行目"
  {
    MultilineQuoteLiterals();
    QuoteOfThreeLines(b, "1行目", "2行目", "3行目");
  }

  /** A quote of one plain line, without children: the line behind `> `. */
  lemma QuoteOfOneLine(id: string, t: string)
    requires '\n' !in t
    ensures FromNotionBlock(Block(id, Quote([Plain(t)]), [])) == "> " + t
  {
    QuoteOfPlainText(id, t);
    PrefixLinesSingle("> ", t);
  }

  /** A quote of one plain line with one non-empty one-line paragraph child:
      both lines behind `> `. */
  lemma QuoteWithParagraph(id: string, t: string, pid: string, c: string)
    requires c != "" && '\n' !in t && '\n' !in c
    ensures FromNotionBlock(Block(id, Quote([Plain(t)]), [Para(pid, c)])) == "> " + t + "\n" + "> " + c
  {
    QuoteDispatch(id, [Plain(t)], [Para(pid, c)]);
    OneParagraph(pid, c);
    PlainText(t);
    QuoteOneLineChild(t, c);
  }

  /** The strings of the other quote tests. */
  lemma QuoteLiterals()
    ensures "> " + "これは引用文です" == "> これは引用文です"
    ensures "> " + "親引用" + "\n" + "> " + "子要素のテキスト" == "> 親引用\n> 子要素のテキスト"
    ensures '\n' !in "これは引用文です" && '\n' !in "親引用" && '\n' !in "子要素のテキスト"
  {
  }

  /** lib/from-notion-block/from-notion-quote-block.test.ts:57. */
  lemma QuoteExample(b: Block)
    requires b == Block("q", Quote([Plain("これは引用文です")]), [])
    ensures FromNotionBlock(b) == "> これは引用文です"
  {
    QuoteLiterals();
    QuoteOfOneLine("q", "これは引用文です");
  }

  /** lib/from-notion-block/from-notion-quote-block.test.ts:168. */
  lemma QuoteWithChildExample(b: Block)
    requires b == Block("q", Quote([Plain("親引用")]), [Para("p", "子要素のテキスト")])
    ensures FromNotionBlock(b) == "> 親引用\n> 子要素のテキスト"
  {
    QuoteLiterals();
    QuoteWithParagraph("q", "親引用", "p", "子要素のテキスト");
  }

  // ---------------------------------------------------------------------
  // To-do

  /** An unchecked to-do with one paragraph child, all single lines, whose
      last character is not whitespace: nothing is trimmed. */
  lemma ToDoWithParagraph(id: string, t: string, pid: string, c: string)
    requires '\n' !in c
    requires c != [] && !IsJsWhitespace(c[|c| - 1])
    ensures FromNotionBlock(Block(id, ToDo([Plain(t)], false), [Para(pid, c)]))
      == "- [ ] " + t + "\n" + "  " + c
  {
    ToDoDispatch(id, t, pid, c);
    OneParagraph(pid, c);
    ToDoOneLineChild(t, c);
  }

  /** The layout of an unchecked to-do with a plain text and one one-line
      child that does not end in whitespace. */
  lemma ToDoOneLineChild(t: string, c: string)
    requires '\n' !in c
    requires c != [] && !IsJsWhitespace(c[|c| - 1])
    ensures FromNotionToDoBlock([Plain(t)], false, [c]) == "- [ ] " + t + "\n" + "  " + c
  {
    PlainText(t);
    var item := CheckboxItem(false, t);
    assert item == "- [ ] " + t;
    IndentedOneLineChild(item, "  ", c);
    var u := item + "\n" + "  " + c;
    assert u[0] == '-';
    assert u[|u| - 1] == c[|c| - 1];
    TrimUnchanged(u);
  }

  /** The to-do serializer reached by the dispatch, for a paragraph
      child. */
  lemma ToDoDispatch(id: string, t: string, pid: string, c: string)
    ensures FromNotionBlock(Block(id, ToDo([Plain(t)], false), [Para(pid, c)]))
      == FromNotionToDoBlock([Plain(t)], false, FromNotionBlocks([Para(pid, c)]))
  {
  }

  /** lib/from-notion-block/from-notion-to-do-block.test.ts:171. */
  lemma ToDoWithChildExample(b: Block)
    requires b == Block("t", ToDo([Plain("親タスク")], false), [Para("p", "サブタスクの説明")])
    ensures FromNotionBlock(b) == "- [ ] 親タスク\n  サブタスクの説明"
  {
    ToDoWithParagraph("t", "親タスク", "p", "サブタスクの説明");
  }

  /** A to-do without children is its checkbox, a space and the text. */
  lemma ToDoWithoutChildren(id: string, t: string, checked: bool)
    ensures FromNotionBlock(Block(id, ToDo([Plain(t)], checked), []))
      == (if checked then "- [x] " else "- [ ] ") + t
  {
    var b := Block(id, ToDo([Plain(t)], checked), []);
    assert FromNotionBlocks(b.children) == [];
    assert FromNotionBlock(b) == FromNotionToDoBlock([Plain(t)], checked, []);
    PlainText(t);
    if checked {
      assert "- " + "[x]" + " " == "- [x] ";
    } else {
      assert "- " + "[ ]" + " " == "- [ ] ";
    }
  }

  /** The strings of the to-do tests without children. */
  lemma ToDoLiterals()
    ensures "- [ ] " + "タスク1" == "- [ ] タスク1"
    ensures "- [x] " + "完了したタスク" == "- [x] 完了したタスク"
  {
  }

  /** lib/from-notion-block/from-notion-to-do-block.test.ts:58: unchecked. */
  lemma ToDoUncheckedExample(b: Block)
    requires b == Block("t", ToDo([Plain("タスク1")], false), [])
    ensures FromNotionBlock(b) == "- [ ] タスク1"
  {
    ToDoLiterals();
    ToDoWithoutChildren("t", "タスク1", false);
  }

  /** lib/from-notion-block/from-notion-to-do-block.test.ts:91: checked. */
  lemma ToDoCheckedExample(b: Block)
    requires b == Block("t", ToDo([Plain("完了したタスク")], true), [])
    ensures FromNotionBlock(b) == "- [x] 完了したタスク"
  {
    ToDoLiterals();
    ToDoWithoutChildren("t", "完了したタスク", true);
  }

  // ---------------------------------------------------------------------
  // Toggle and columns

  /** A toggle with one non-empty paragraph child: the bold title, a blank
      line and the child. */
  lemma ToggleWithParagraph(id: string, t: string, pid: string, c: string)
    requires c != ""
    ensures FromNotionBlock(Block(id, Toggle([Plain(t)]), [Para(pid, c)]))
      == "**" + t + "**" + "\n\n" + c
  {
    ToggleDispatch(id, [Plain(t)], [Para(pid, c)]);
    OneParagraph(pid, c);
    ToggleOneChild(t, c);
  }

  /** The layout of a toggle with a plain title and one non-empty child. */
  lemma ToggleOneChild(t: string, c: string)
    requires c != ""
    ensures FromNotionToggleBlock([Plain(t)], [c]) == "**" + t + "**" + "\n\n" + c
  {
    PlainText(t);
    assert NonEmpty([c]) == [c];
    assert Join([c], "\n\n") == c;
  }

  /** lib/from-notion-block/from-notion-toggle-block.test.ts:136. */
  lemma ToggleWithChildExample(b: Block)
    requires b == Block("g", Toggle([Plain("詳細を表示")]), [Para("p", "トグル内のコンテンツ")])
    ensures FromNotionBlock(b) == "**詳細を表示**\n\nトグル内のコンテンツ"
  {
    ToggleWithParagraph("g", "詳細を表示", "p", "トグル内のコンテンツ");
  }

  /** A toggle without children is its title in bold. */
  lemma ToggleWithoutChildren(id: string, t: string)
    ensures FromNotionBlock(Block(id, Toggle([Plain(t)]), [])) == "**" + t + "**"
  {
    PlainText(t);
  }

  /** lib/from-notion-block/from-notion-toggle-block.test.ts:57. */
  lemma ToggleExample(b: Block)
    requires b == Block("g", Toggle([Plain("トグルのタイトル")]), [])
    ensures FromNotionBlock(b) == "**トグルのタイトル**"
  {
    assert "**" + "トグルのタイトル" + "**" == "**トグルのタイトル**";
    ToggleWithoutChildren("g", "トグルのタイトル");
  }

  /** Two non-empty children separated by a blank line. */
  lemma TwoColumnsParts(a: string, b: string)
    requires a != "" && b != ""
    ensures FromNotionColumnListBlock([a, b]) == a + "\n\n" + b
  {
    NonEmptyNoEmpty([a, b]);
    JoinTwo(a, b, "\n\n");
  }

  /** A column of two non-empty paragraphs: the two separated by a blank
      line. */
  lemma ColumnOfTwoParagraphs(id: string, p1: string, a: string, p2: string, b: string)
    requires a != "" && b != ""
    ensures FromNotionBlock(Block(id, Column, [Para(p1, a), Para(p2, b)])) == a + "\n\n" + b
  {
    ColumnDispatch(id, [Para(p1, a), Para(p2, b)]);
    TwoParagraphs(p1, a, p2, b);
    TwoColumnsParts(a, b);
  }

  /** The children's Markdown of two paragraphs. */
  lemma TwoParagraphs(p1: string, a: string, p2: string, b: string)
    ensures FromNotionBlocks([Para(p1, a), Para(p2, b)]) == [a, b]
  {
    ParaText(p1, a);
    ParaText(p2, b);
    TwoChildren(Para(p1, a), Para(p2, b));
  }

  /** lib/from-notion-block/from-notion-column-block.test.ts:121. */
  lemma ColumnExample(b: Block)
    requires b == Block("k", Column, [Para("p1", "カラム内のテキスト1"), Para("p2", "カラム内のテキスト2")])
    ensures FromNotionBlock(b) == "カラム内のテキスト1\n\nカラム内のテキスト2"
  {
    ColumnOfTwoParagraphs("k", "p1", "カラム内のテキスト1", "p2", "カラム内のテキスト2");
  }

  /** A column of one paragraph renders as the paragraph. */
  lemma ColumnOfOneParagraph(id: string, pid: string, a: string)
    requires a != ""
    ensures FromNotionBlock(Block(id, Column, [Para(pid, a)])) == a
  {
    ColumnDispatch(id, [Para(pid, a)]);
    OneParagraph(pid, a);
    assert NonEmpty([a]) == [a];
  }

  /** A column list of two columns of one non-empty paragraph each. */
  lemma ColumnListOfTwoColumns(id: string, c1: string, p1: string, a: string, c2: string, p2: string, b: string)
    requires a != "" && b != ""
    ensures FromNotionBlock(Block(id, ColumnList, [Block(c1, Column, [Para(p1, a)]), Block(c2, Column, [Para(p2, b)])]))
      == a + "\n\n" + b
  {
    var k1 := Block(c1, Column, [Para(p1, a)]);
    var k2 := Block(c2, Column, [Para(p2, b)]);
    ColumnListDispatch(id, [k1, k2]);
    ColumnOfOneParagraph(c1, p1, a);
    ColumnOfOneParagraph(c2, p2, b);
    TwoChildren(k1, k2);
    TwoColumnsParts(a, b);
  }

  /** lib/from-notion-block/from-notion-column-list-block.test.ts:171. */
  lemma ColumnListExample(b: Block)
    requires b == Block("l", ColumnList, [Block("c1", Column, [Para("p1", "左カラム")]),
                                          Block("c2", Column, [Para("p2", "右カラム")])])
    ensures FromNotionBlock(b) == "左カラム\n\n右カラム"
  {
    ColumnListOfTwoColumns("l", "c1", "p1", "左カラム", "c2", "p2", "右カラム");
  }

  /** A column or a column list without children renders as nothing
      (lib/from-notion-block/from-notion-column-block.test.ts:132 and
      lib/from-notion-block/from-notion-column-list-block.test.ts:182). */
  lemma ColumnsWithoutChildren(id: string)
    ensures FromNotionBlock(Block(id, Column, [])) == ""
    ensures FromNotionBlock(Block(id, ColumnList, [])) == ""
  {
  }

  // ---------------------------------------------------------------------
  // Table

  /** A table row of three plain cells. */
  function PlainRow(id: string, x: string, y: string, z: string): Block
  {
    Block(id, TableRow([[Plain(x)], [Plain(y)], [Plain(z)]]), [])
  }

  /** The rendered cells of a row of plain cells are the cells' texts. */
  lemma PlainRowCells(id: string, x: string, y: string, z: string)
    ensures RowCells(PlainRow(id, x, y, z).kind.cells) == [x, y, z]
  {
    PlainText(x);
    PlainText(y);
    PlainText(z);
  }

  /** One table line of three cells. */
  lemma RowLineOfThree(x: string, y: string, z: string)
    ensures RowLine([x, y, z]) == "| " + x + " | " + y + " | " + z + " |"
  {
    JoinThree(x, y, z, " | ");
  }

  /** The rows of a table of two plain rows. */
  lemma TwoPlainRows(r1: Block, r2: Block, a1: string, a2: string, a3: string, b1: string, b2: string, b3: string)
    requires r1 == PlainRow("r1", a1, a2, a3) && r2 == PlainRow("r2", b1, b2, b3)
    ensures TableRows([r1, r2]) == [[a1, a2, a3], [b1, b2, b3]]
  {
    PlainRowCells("r1", a1, a2, a3);
    PlainRowCells("r2", b1, b2, b3);
    TableRowsAppendRow([], r1);
    TableRowsAppendRow([r1], r2);
    assert [] + [r1] == [r1];
    assert [r1] + [r2] == [r1, r2];
  }

  /** A table of a header row and one body row, three plain cells each. */
  lemma TableOfTwoRows(a1: string, a2: string, a3: string, b1: string, b2: string, b3: string)
    ensures TableMarkdown([PlainRow("r1", a1, a2, a3), PlainRow("r2", b1, b2, b3)])
      == RowLine([a1, a2, a3]) + "\n" + "| --- | --- | --- |" + "\n" + RowLine([b1, b2, b3])
  {
    var r1 := PlainRow("r1", a1, a2, a3);
    var r2 := PlainRow("r2", b1, b2, b3);
    var rows := [[a1, a2, a3], [b1, b2, b3]];
    TwoPlainRows(r1, r2, a1, a2, a3, b1, b2, b3);
    ThreeColumnDelimiter();
    assert TableLines(rows) == [RowLine([a1, a2, a3]), "| --- | --- | --- |", RowLine([b1, b2, b3])];
    JoinThree(RowLine([a1, a2, a3]), "| --- | --- | --- |", RowLine([b1, b2, b3]), "\n");
  }

  /** The rows of the table test. */
  lemma TableLiterals()
    ensures "| " + "名前" + " | " + "年齢" + " | " + "職業" + " |" == "| 名前 | 年齢 | 職業 |"
    ensures "| " + "田中" + " | " + "30" + " | " + "エンジニア" + " |" == "| 田中 | 30 | エンジニア |"
  {
  }

  /** lib/from-notion-block/from-notion-table-block.test.ts:190-193: the
      expected Markdown, written line by line. */
  lemma TableExample(children: seq<Block>)
    requires children == [PlainRow("r1", "名前", "年齢", "職業"), PlainRow("r2", "田中", "30", "エンジニア")]
    ensures TableMarkdown(children)
      == "| 名前 | 年齢 | 職業 |" + "\n" + "| --- | --- | --- |" + "\n" + "| 田中 | 30 | エンジニア |"
  {
    TableLiterals();
    RowLineOfThree("名前", "年齢", "職業");
    RowLineOfThree("田中", "30", "エンジニア");
    TableOfTwoRows("名前", "年齢", "職業", "田中", "30", "エンジニア");
  }

  /** A table without children renders as nothing
      (lib/from-notion-block/from-notion-table-block.test.ts:209). */
  lemma EmptyTableExample(id: string)
    ensures FromNotionBlock(Block(id, Table(3, true, false), [])) == ""
  {
  }

  // ---------------------------------------------------------------------
  // Links and leaves

  /** A child page or child database whose id is in the dashed UUID layout
      links its title to the groups run together. */
  lemma ChildLinkOfGroups(b: Block, g1: string, g2: string, g3: string, g4: string, g5: string)
    requires b.kind.ChildPage? || b.kind.ChildDatabase?
    requires b.id == g1 + "-" + g2 + "-" + g3 + "-" + g4 + "-" + g5
    requires '-' !in g1 && '-' !in g2 && '-' !in g3 && '-' !in g4 && '-' !in g5
    ensures FromNotionBlock(b) == "[" + b.kind.title + "](" + NotionOrigin + (g1 + g2 + g3 + g4 + g5) + ")"
  {
    RemoveDashesOfGroups(g1, g2, g3, g4, g5);
  }

  /** The id of the child page and child database tests, in its five
      groups. */
  lemma ChildPageIdGroups()
    ensures "1d8842f9-6181-80d8-af1c-dece63b450b0"
      == "1d8842f9" + "-" + "6181" + "-" + "80d8" + "-" + "af1c" + "-" + "dece63b450b0"
  {
  }

  /** The groups of the child page and child database tests' id, run
      together. */
  lemma ChildPageIdRun()
    ensures "1d8842f9" + "6181" + "80d8" + "af1c" + "dece63b450b0" == "1d8842f9618180d8af1cdece63b450b0"
  {
  }

  /** lib/from-notion-block/from-notion-child-page-block.test.ts:32-35: the
      expected link, with the origin written as `NotionOrigin`. */
  lemma ChildPageExample(b: Block)
    requires b == Block("1d8842f9-6181-80d8-af1c-dece63b450b0", ChildPage("子ページのタイトル"), [])
    ensures FromNotionBlock(b) == "[子ページのタイトル](" + NotionOrigin + "1d8842f9618180d8af1cdece63b450b0" + ")"
  {
    ChildPageIdGroups();
    ChildPageIdRun();
    assert "[" + "子ページのタイトル" + "](" == "[子ページのタイトル](";
    ChildLinkOfGroups(b, "1d8842f9", "6181", "80d8", "af1c", "dece63b450b0");
  }

  /** lib/from-notion-block/from-notion-child-database-block.test.ts:33-35:
      the expected link, with the origin written as `NotionOrigin`. */
  lemma ChildDatabaseExample(b: Block)
    requires b == Block("1d8842f9-6181-80d8-af1c-dece63b450b0", ChildDatabase("子データベースのタイトル"), [])
    ensures FromNotionBlock(b) == "[子データベースのタイトル](" + NotionOrigin + "1d8842f9618180d8af1cdece63b450b0" + ")"
  {
    ChildPageIdGroups();
    ChildPageIdRun();
    assert "[" + "子データベースのタイトル" + "](" == "[子データベースのタイトル](";
    ChildLinkOfGroups(b, "1d8842f9", "6181", "80d8", "af1c", "dece63b450b0");
  }

  /** A link to a page or a database whose id is in the dashed UUID layout
      is the origin followed by the groups run together. */
  lemma LinkToPageOfGroups(b: Block, g1: string, g2: string, g3: string, g4: string, g5: string)
    requires b.kind.LinkToPage? && !b.kind.target.OtherTarget?
    requires b.kind.target.PageTarget? ==> b.kind.target.pageId == g1 + "-" + g2 + "-" + g3 + "-" + g4 + "-" + g5
    requires b.kind.target.DatabaseTarget? ==> b.kind.target.databaseId == g1 + "-" + g2 + "-" + g3 + "-" + g4 + "-" + g5
    requires '-' !in g1 && '-' !in g2 && '-' !in g3 && '-' !in g4 && '-' !in g5
    ensures FromNotionBlock(b) == NotionOrigin + (g1 + g2 + g3 + g4 + g5)
  {
    RemoveDashesOfGroups(g1, g2, g3, g4, g5);
  }

  /** The page id of the link-to-page tests, in its five groups. */
  lemma PageIdGroups()
    ensures "abcd1234-5678-90ab-cdef-1234567890ab"
      == "abcd1234" + "-" + "5678" + "-" + "90ab" + "-" + "cdef" + "-" + "1234567890ab"
  {
  }

  /** The groups of the page id of the link-to-page tests, run together. */
  lemma PageIdRun()
    ensures "abcd1234" + "5678" + "90ab" + "cdef" + "1234567890ab" == "abcd1234567890abcdef1234567890ab"
  {
  }

  /** The database id of the link-to-page tests, in its five groups. */
  lemma DatabaseIdGroups()
    ensures "dbcd1234-5678-90ab-cdef-1234567890ab"
      == "dbcd1234" + "-" + "5678" + "-" + "90ab" + "-" + "cdef" + "-" + "1234567890ab"
  {
  }

  /** The groups of the database id of the link-to-page tests, run together. */
  lemma DatabaseIdRun()
    ensures "dbcd1234" + "5678" + "90ab" + "cdef" + "1234567890ab" == "dbcd1234567890abcdef1234567890ab"
  {
  }

  /** lib/from-notion-block/from-notion-link-to-page-block.test.ts:38: a
      page target. */
  lemma LinkToPageExample(b: Block)
    requires b == Block("x", LinkToPage(PageTarget("abcd1234-5678-90ab-cdef-1234567890ab")), [])
    ensures FromNotionBlock(b) == NotionOrigin + "abcd1234567890abcdef1234567890ab"
  {
    PageIdGroups();
    PageIdRun();
    LinkToPageOfGroups(b, "abcd1234", "5678", "90ab", "cdef", "1234567890ab");
  }

  /** lib/from-notion-block/from-notion-link-to-page-block.test.ts:51: a
      database target. */
  lemma LinkToDatabaseExample(b: Block)
    requires b == Block("y", LinkToPage(DatabaseTarget("dbcd1234-5678-90ab-cdef-1234567890ab")), [])
    ensures FromNotionBlock(b) == NotionOrigin + "dbcd1234567890abcdef1234567890ab"
  {
    DatabaseIdGroups();
    DatabaseIdRun();
    LinkToPageOfGroups(b, "dbcd1234", "5678", "90ab", "cdef", "1234567890ab");
  }

  /** An image without a caption takes `image` as alt text, whether its
      file is external or hosted. */
  lemma ImageWithoutCaption(id: string, file: FileRef)
    requires file.url != ""
    ensures FromNotionBlock(Block(id, Image(file, []), [])) == "![image](" + file.url + ")"
  {
    assert RichTextMarkdown([]) == "";
    assert ImageAlt([]) == "image";
  }

  /** An image whose caption is one non-empty plain span takes the caption
      as alt text. */
  lemma ImageWithCaption(id: string, file: FileRef, t: string)
    requires file.url != "" && t != ""
    ensures FromNotionBlock(Block(id, Image(file, [Plain(t)]), [])) == "![" + t + "](" + file.url + ")"
  {
    PlainText(t);
  }

  /** The string of the external image test. */
  lemma ImageExternalLiteral()
    ensures "![image](" + "https://example.com/image.png" + ")" == "![image](https://example.com/image.png)"
  {
  }

  /** The string of the hosted image test. */
  lemma ImageHostedLiteral()
    ensures "![image](" + "https://s3.amazonaws.com/notion/image.png" + ")"
      == "![image](https://s3.amazonaws.com/notion/image.png)"
  {
  }

  /** The string of the image caption test. */
  lemma ImageCaptionLiteral()
    ensures "![" + "サンプル画像" + "](" + "https://example.com/image.png" + ")"
      == "![サンプル画像](https://example.com/image.png)"
  {
  }

  /** lib/from-notion-block/from-notion-image-block.test.ts:41: an external
      image without a caption. */
  lemma ImageExternalExample(b: Block)
    requires b == Block("i", Image(External("https://example.com/image.png"), []), [])
    ensures FromNotionBlock(b) == "![image](https://example.com/image.png)"
  {
    ImageExternalLiteral();
    ImageWithoutCaption("i", External("https://example.com/image.png"));
  }

  /** lib/from-notion-block/from-notion-image-block.test.ts:58: a hosted
      image without a caption. */
  lemma ImageHostedExample(b: Block)
    requires b == Block("i", Image(Hosted("https://s3.amazonaws.com/notion/image.png", "2025-04-20T16:01:00.000Z"), []), [])
    ensures FromNotionBlock(b) == "![image](https://s3.amazonaws.com/notion/image.png)"
  {
    ImageHostedLiteral();
    ImageWithoutCaption("i", Hosted("https://s3.amazonaws.com/notion/image.png", "2025-04-20T16:01:00.000Z"));
  }

  /** lib/from-notion-block/from-notion-image-block.test.ts:92: a caption. */
  lemma ImageCaptionExample(b: Block)
    requires b == Block("i", Image(External("https://example.com/image.png"), [Plain("サンプル画像")]), [])
    ensures FromNotionBlock(b) == "![サンプル画像](https://example.com/image.png)"
  {
    ImageCaptionLiteral();
    ImageWithCaption("i", External("https://example.com/image.png"), "サンプル画像");
  }

  /** Audio, file and PDF blocks with a URL: the fixed label linked to it. */
  lemma MediaLinks(id: string, file: FileRef, name: string)
    requires file.url != ""
    ensures FromNotionBlock(Block(id, Audio(file, []), [])) == "[音声](" + file.url + ")"
    ensures FromNotionBlock(Block(id, File(file, [], name), [])) == "[ファイル](" + file.url + ")"
    ensures FromNotionBlock(Block(id, Pdf(file, []), [])) == "[PDF](" + file.url + ")"
  {
  }

  /** The strings of the audio tests. */
  lemma AudioLiterals()
    ensures "[音声](" + "https://example.com/audio.mp3" + ")" == "[音声](https://example.com/audio.mp3)"
    ensures "[音声](" + "https://s3.amazonaws.com/notion/audio.mp3" + ")"
      == "[音声](https://s3.amazonaws.com/notion/audio.mp3)"
  {
  }

  /** The string of the external file test. */
  lemma FileLiterals()
    ensures "[ファイル](" + "https://example.com/document.pdf" + ")" == "[ファイル](https://example.com/document.pdf)"
  {
  }

  /** The string of the hosted file test, in two parts. */
  lemma FileHostedLiteral()
    ensures "https://s3.amazonaws.com/notion/document.pdf" == "https://s3.amazonaws.com/" + "notion/document.pdf"
    ensures "[ファイル](" + "https://s3.amazonaws.com/" == "[ファイル](https://s3.amazonaws.com/"
    ensures "notion/document.pdf" + ")" == "notion/document.pdf)"
  {
  }

  /** The string of the external PDF test. */
  lemma PdfLiterals()
    ensures "[PDF](" + "https://example.com/document.pdf" + ")" == "[PDF](https://example.com/document.pdf)"
  {
  }

  /** The string of the hosted PDF test, in two parts. */
  lemma PdfHostedLiteral()
    ensures "https://s3.amazonaws.com/notion/document.pdf" == "https://s3.amazonaws.com/" + "notion/document.pdf"
    ensures "[PDF](" + "https://s3.amazonaws.com/" == "[PDF](https://s3.amazonaws.com/"
    ensures "notion/document.pdf" + ")" == "notion/document.pdf)"
  {
  }

  /** lib/from-notion-block/from-notion-audio-block.test.ts:41 and :58. */
  lemma AudioExamples(ext: Block, hosted: Block)
    requires ext == Block("a", Audio(External("https://example.com/audio.mp3"), []), [])
    requires hosted == Block("a", Audio(Hosted("https://s3.amazonaws.com/notion/audio.mp3", "2025-04-20T16:01:00.000Z"), []), [])
    ensures FromNotionBlock(ext) == "[音声](https://example.com/audio.mp3)"
    ensures FromNotionBlock(hosted) == "[音声](https://s3.amazonaws.com/notion/audio.mp3)"
  {
    AudioLiterals();
    MediaLinks("a", ext.kind.file, "");
    MediaLinks("a", hosted.kind.file, "");
  }

  /** lib/from-notion-block/from-notion-file-block.test.ts:42 and :60-62. */
  lemma FileExamples(ext: Block, hosted: Block)
    requires ext == Block("f", File(External("https://example.com/document.pdf"), [], "document.pdf"), [])
    requires hosted == Block("f", File(Hosted("https://s3.amazonaws.com/notion/document.pdf", "2025-04-20T16:01:00.000Z"), [], "document.pdf"), [])
    ensures FromNotionBlock(ext) == "[ファイル](https://example.com/document.pdf)"
    ensures FromNotionBlock(hosted) == "[ファイル](https://s3.amazonaws.com/" + "notion/document.pdf)"
  {
    FileLiterals();
    FileHostedLiteral();
    MediaLinks("f", ext.kind.file, "document.pdf");
    MediaLinks("f", hosted.kind.file, "document.pdf");
    var u, v := "https://s3.amazonaws.com/", "notion/document.pdf";
    assert "[ファイル](" + (u + v) + ")" == ("[ファイル](" + u) + (v + ")");
  }

  /** lib/from-notion-block/from-notion-pdf-block.test.ts:41 and :58. */
  lemma PdfExamples(ext: Block, hosted: Block)
    requires ext == Block("d", Pdf(External("https://example.com/document.pdf"), []), [])
    requires hosted == Block("d", Pdf(Hosted("https://s3.amazonaws.com/notion/document.pdf", "2025-04-20T16:01:00.000Z"), []), [])
    ensures FromNotionBlock(ext) == "[PDF](https://example.com/document.pdf)"
    ensures FromNotionBlock(hosted) == "[PDF](https://s3.amazonaws.com/" + "notion/document.pdf)"
  {
    PdfLiterals();
    PdfHostedLiteral();
    MediaLinks("d", ext.kind.file, "");
    MediaLinks("d", hosted.kind.file, "");
    var u, v := "https://s3.amazonaws.com/", "notion/document.pdf";
    assert "[PDF](" + (u + v) + ")" == ("[PDF](" + u) + (v + ")");
  }

  /** A link preview (lib/from-notion-block/from-notion-link-preview-block.test.ts:33). */
  lemma LinkPreviewExample()
    ensures FromNotionBlock(Block("l", LinkPreview("https://example.com/preview"), [])) == "https://example.com/preview"
  {
  }

  /** An equation block (lib/from-notion-block/from-notion-equation-block.test.ts:33). */
  lemma EquationExample()
    ensures FromNotionBlock(Block("e", Equation("E = mc^2"), [])) == "$E = mc^2$"
  {
  }

  /** The expression of the complex equation test, in two parts. */
  lemma ComplexEquationLiterals()
    ensures "\\int_0^\\infty e^{-x^2} dx = \\frac{\\sqrt{\\pi}}{2}"
      == "\\int_0^\\infty e^{-x^2} dx = " + "\\frac{\\sqrt{\\pi}}{2}"
    ensures "$" + "\\int_0^\\infty e^{-x^2} dx = " == "$\\int_0^\\infty e^{-x^2} dx = "
    ensures "\\frac{\\sqrt{\\pi}}{2}" + "$" == "\\frac{\\sqrt{\\pi}}{2}$"
  {
  }

  /** A complex equation, backslashes and braces unaltered
      (lib/from-notion-block/from-notion-equation-block.test.ts:45-47); the
      expected string is written in two parts. */
  lemma ComplexEquationExample(b: Block)
    requires b == Block("e", Equation("\\int_0^\\infty e^{-x^2} dx = \\frac{\\sqrt{\\pi}}{2}"), [])
    ensures FromNotionBlock(b) == "$\\int_0^\\infty e^{-x^2} dx = " + "\\frac{\\sqrt{\\pi}}{2}$"
  {
    ComplexEquationLiterals();
    var x, y := "\\int_0^\\infty e^{-x^2} dx = ", "\\frac{\\sqrt{\\pi}}{2}";
    assert "$" + (x + y) + "$" == ("$" + x) + (y + "$");
  }
}
