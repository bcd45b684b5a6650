/** The serializers of the blocks that nest other blocks. Each one takes its
    own rich text and the Markdown its children already rendered to, in
    order (`block.children.map((child) => fromNotionBlock(child))`); the
    recursion itself is in the Serializer module. */
module Containers {
  import opened Strings
  import opened RichText

  // ---------------------------------------------------------------------
  // Quote and callout: every line behind `> `

  /** The layout shared by quotes and callouts: the content with `> ` in
      front of each of its lines, then, when there are children, a newline
      and the non-empty children, each with `> ` in front of each line. */
  function QuoteLayout(content: string, childMarkdown: seq<string>): string
  {
    var lines := PrefixLines("> ", content);
    if |childMarkdown| == 0 then lines
    else lines + "\n" + Join(PrefixEach("> ", NonEmpty(childMarkdown)), "\n")
  }

  /** `fromNotionQuoteBlock`. */
  function FromNotionQuoteBlock(richText: seq<Span>, childMarkdown: seq<string>): string
  {
    QuoteLayout(RichTextMarkdown(richText), childMarkdown)
  }

  /** The text of a callout: the icon's emoji and a space, when there is an
      emoji, before the rich text. */
  function CalloutContent(icon: Icon, text: string): (r: string)
    ensures ExtractIconText(icon) == "" ==> r == text
    ensures ExtractIconText(icon) != "" ==> r == ExtractIconText(icon) + " " + text
  {
    var iconText := ExtractIconText(icon);
    var prefix := if iconText != "" then iconText + " " else "";
    prefix + text
  }

  /** `fromNotionCalloutBlock`. */
  function FromNotionCalloutBlock(richText: seq<Span>, icon: Icon, childMarkdown: seq<string>): string
  {
    QuoteLayout(CalloutContent(icon, RichTextMarkdown(richText)), childMarkdown)
  }

  // ---------------------------------------------------------------------
  // List items: the children indented under the item

  /** The item line, a newline, and every child with `indent` in front of
      each of its lines; empty children are kept. */
  function IndentedLayout(item: string, indent: string, childMarkdown: seq<string>): string
  {
    item + "\n" + Join(PrefixEach(indent, childMarkdown), "\n")
  }

  /** The first line of a to-do item: `- [x] ` or `- [ ] ` and the text. */
  function CheckboxItem(checked: bool, text: string): string
  {
    "- " + (if checked then "[x]" else "[ ]") + " " + text
  }

  /** `fromNotionToDoBlock`: children indented by two spaces, the whole
      trimmed. */
  function FromNotionToDoBlock(richText: seq<Span>, checked: bool, childMarkdown: seq<string>): string
  {
    var item := CheckboxItem(checked, RichTextMarkdown(richText));
    if |childMarkdown| == 0 then item else Trim(IndentedLayout(item, "  ", childMarkdown))
  }

  /** `fromNotionBulletedListItemBlock`: children indented by four spaces,
      the whole trimmed. */
  function FromNotionBulletedListItemBlock(richText: seq<Span>, childMarkdown: seq<string>): string
  {
    var item := "- " + RichTextMarkdown(richText);
    if |childMarkdown| == 0 then item else Trim(IndentedLayout(item, "    ", childMarkdown))
  }

  /** `fromNotionNumberedListItemBlock`: always numbered `1.`, children
      indented by four spaces, and not trimmed. */
  function FromNotionNumberedListItemBlock(richText: seq<Span>, childMarkdown: seq<string>): string
  {
    var item := "1. " + RichTextMarkdown(richText);
    if |childMarkdown| == 0 then item else IndentedLayout(item, "    ", childMarkdown)
  }

  // ---------------------------------------------------------------------
  // Toggle and columns: children as paragraphs

  /** `fromNotionToggleBlock`: the title in bold, then a blank line and the
      non-empty children separated by blank lines. */
  function FromNotionToggleBlock(richText: seq<Span>, childMarkdown: seq<string>): string
  {
    var title := "**" + RichTextMarkdown(richText) + "**";
    if |childMarkdown| == 0 then title
    else title + "\n\n" + Join(NonEmpty(childMarkdown), "\n\n")
  }

  /** `fromNotionColumnListBlock`, which columns use as well: the non-empty
      children separated by blank lines. */
  function FromNotionColumnListBlock(childMarkdown: seq<string>): string
  {
    Join(NonEmpty(childMarkdown), "\n\n")
  }

  // ---------------------------------------------------------------------
  // Properties of the quote layout

  /** With at least one non-empty child, the output is the content and the
      non-empty children, one per line group, all of it behind `> `: each
      output line is one line of those with `> ` in front. */
  lemma QuoteWithChildren(content: string, childMarkdown: seq<string>)
    requires NonEmpty(childMarkdown) != []
    ensures QuoteLayout(content, childMarkdown)
      == PrefixLines("> ", content + "\n" + Join(NonEmpty(childMarkdown), "\n"))
    ensures Lines(QuoteLayout(content, childMarkdown))
      == PrefixAll("> ", Lines(content) + Lines(Join(NonEmpty(childMarkdown), "\n")))
  {
    var kept := NonEmpty(childMarkdown);
    var body := Join(kept, "\n");
    PrefixEachJoin("> ", kept);
    PrefixLinesAppend("> ", content, body);
    LinesOfPrefixLines("> ", content + "\n" + body);
    LinesAppend(content, body);
  }

  /** A one-line content with one non-empty one-line child. */
  lemma QuoteOneLineChild(content: string, child: string)
    requires child != "" && '\n' !in content && '\n' !in child
    ensures QuoteLayout(content, [child]) == "> " + content + "\n" + "> " + child
  {
    PrefixLinesSingle("> ", content);
    PrefixLinesSingle("> ", child);
    assert NonEmpty([child]) == [child];
    assert PrefixEach("> ", [child]) == ["> " + child];
  }

  /** Without children, every line of the content is behind `> `. */
  lemma QuoteWithoutChildren(content: string)
    ensures Lines(QuoteLayout(content, [])) == PrefixAll("> ", Lines(content))
  {
    LinesOfPrefixLines("> ", content);
  }

  /** When the block has children but all of them render empty, the output
      is the quoted content followed by a dangling newline. */
  lemma QuoteEmptyChildren(content: string, childMarkdown: seq<string>)
    requires |childMarkdown| > 0
    requires forall i :: 0 <= i < |childMarkdown| ==> childMarkdown[i] == ""
    ensures QuoteLayout(content, childMarkdown) == PrefixLines("> ", content) + "\n"
  {
    assert NonEmpty(childMarkdown) == [];
  }

  /** Every line of the output starts with `> `, unless it is the dangling
      empty last line left by children that all render empty. */
  lemma QuoteLinesQuoted(content: string, childMarkdown: seq<string>)
    requires |childMarkdown| == 0 || NonEmpty(childMarkdown) != []
    ensures forall k :: 0 <= k < |Lines(QuoteLayout(content, childMarkdown))| ==>
              "> " <= Lines(QuoteLayout(content, childMarkdown))[k]
  {
    if |childMarkdown| == 0 {
      QuoteWithoutChildren(content);
    } else {
      QuoteWithChildren(content, childMarkdown);
    }
  }

  /** A child that renders empty is skipped, as long as another child is
      left so the block still has children. */
  lemma QuoteSkipsEmptyChild(content: string, a: seq<string>, b: seq<string>)
    requires |a + b| > 0
    ensures QuoteLayout(content, a + [""] + b) == QuoteLayout(content, a + b)
  {
    NonEmptySkipsEmpty(a, b);
  }

  /** A quote nested in a quote has its lines behind `> > `. */
  lemma NestedQuote(outer: string, inner: string)
    ensures QuoteLayout(outer, [QuoteLayout(inner, [])])
      == PrefixLines("> ", outer) + "\n" + PrefixLines("> > ", inner)
  {
    var child := QuoteLayout(inner, []);
    PrefixLinesStarts("> ", inner);
    assert child != "";
    assert NonEmpty([child]) == [child];
    PrefixLinesCompose("> ", "> ", inner);
    assert "> " + "> " == "> > ";
    assert PrefixEach("> ", [child]) == [PrefixLines("> > ", inner)];
  }

  /** A callout without an emoji icon lays out exactly as a quote. */
  lemma CalloutWithoutEmojiIsQuote(richText: seq<Span>, icon: Icon, childMarkdown: seq<string>)
    requires !icon.Emoji? || icon.emoji == ""
    ensures FromNotionCalloutBlock(richText, icon, childMarkdown)
      == FromNotionQuoteBlock(richText, childMarkdown)
  {
  }

  /** A callout with an emoji starts with `> `, the emoji and a space. */
  lemma CalloutStartsWithEmoji(richText: seq<Span>, e: string, childMarkdown: seq<string>)
    requires e != "" && '\n' !in e
    ensures "> " + e + " " <= FromNotionCalloutBlock(richText, Emoji(e), childMarkdown)
  {
    var content := e + " " + RichTextMarkdown(richText);
    var first := Lines(content)[0];
    assert e + " " <= first by {
      SplitFirstPiece(content, e + " ", '\n');
    }
    assert PrefixAll("> ", Lines(content))[0] == "> " + first;
    assert "> " + first <= PrefixLines("> ", content);
  }

  /** The first piece of a split keeps a prefix that does not hold the
      separator. */
  lemma {:induction false} SplitFirstPiece(s: string, p: string, c: char)
    requires p <= s && c !in p
    ensures p <= Split(s, c)[0]
  {
    if p != [] {
      assert s[0] == p[0];
      assert p[1..] <= s[1..];
      assert c !in p[1..];
      SplitFirstPiece(s[1..], p[1..], c);
    }
  }

  // ---------------------------------------------------------------------
  // Properties of the list items

  /** The list layout, with the children joined before they are indented:
      each line of the children gains the indent. */
  lemma IndentedLayoutLines(item: string, indent: string, childMarkdown: seq<string>)
    requires |childMarkdown| > 0 && '\n' !in indent
    ensures IndentedLayout(item, indent, childMarkdown)
      == item + "\n" + PrefixLines(indent, Join(childMarkdown, "\n"))
    ensures Lines(IndentedLayout(item, indent, childMarkdown))
      == Lines(item) + PrefixAll(indent, Lines(Join(childMarkdown, "\n")))
  {
    PrefixEachJoin(indent, childMarkdown);
    LinesAppend(item, PrefixLines(indent, Join(childMarkdown, "\n")));
    LinesOfPrefixLines(indent, Join(childMarkdown, "\n"));
  }

  /** An item with one one-line child. */
  lemma IndentedOneLineChild(item: string, indent: string, child: string)
    requires '\n' !in child
    ensures IndentedLayout(item, indent, [child]) == item + "\n" + indent + child
  {
    PrefixLinesSingle(indent, child);
    assert PrefixEach(indent, [child]) == [indent + child];
  }

  /** A string beginning with a marker whose last character is not
      whitespace keeps the marker once trimmed, and trimming only drops
      trailing whitespace. */
  lemma TrimKeepsMarker(marker: string, s: string)
    requires marker <= s && marker != [] && !IsJsWhitespace(marker[0])
    requires !IsJsWhitespace(marker[|marker| - 1])
    ensures Trim(s) == TrimEnd(s)
    ensures marker <= Trim(s)
  {
    TrimNoLeadingSpace(s);
    var r := TrimEnd(s);
    assert s[|marker| - 1] == marker[|marker| - 1];
    assert !IsJsWhitespace(s[|marker| - 1]);
    assert r[..|marker|] == s[..|marker|];
  }

  /** A to-do item always starts with its checkbox, `[x]` exactly when it
      is checked; without children it is the checkbox, a space and the text,
      untrimmed; with children, the output is the item followed by the
      children's lines indented by two spaces (empty children included),
      with trailing whitespace removed. */
  lemma ToDoShape(richText: seq<Span>, checked: bool, childMarkdown: seq<string>)
    ensures (if checked then "- [x]" else "- [ ]") <= FromNotionToDoBlock(richText, checked, childMarkdown)
    ensures |childMarkdown| == 0 ==>
              FromNotionToDoBlock(richText, checked, childMarkdown)
              == (if checked then "- [x] " else "- [ ] ") + RichTextMarkdown(richText)
    ensures |childMarkdown| > 0 ==>
              FromNotionToDoBlock(richText, checked, childMarkdown)
              == TrimEnd(CheckboxItem(checked, RichTextMarkdown(richText)) + "\n"
                         + PrefixLines("  ", Join(childMarkdown, "\n")))
  {
    var marker := if checked then "- [x]" else "- [ ]";
    var item := CheckboxItem(checked, RichTextMarkdown(richText));
    PrefixOfAppend(marker, marker, " " + RichTextMarkdown(richText));
    assert marker <= item;
    if |childMarkdown| > 0 {
      var j := Join(PrefixEach("  ", childMarkdown), "\n");
      var u := IndentedLayout(item, "  ", childMarkdown);
      IndentedLayoutLines(item, "  ", childMarkdown);
      PrefixOfAppend(marker, item, "\n");
      PrefixOfAppend(marker, item + "\n", j);
      TrimKeepsMarker(marker, u);
    }
  }

  /** A bulleted item always starts with `-`; without children it is `- `
      and the text, untrimmed; with children, the output is
      the item followed by the children's lines indented by four spaces,
      with trailing whitespace removed. */
  lemma BulletedShape(richText: seq<Span>, childMarkdown: seq<string>)
    ensures "-" <= FromNotionBulletedListItemBlock(richText, childMarkdown)
    ensures |childMarkdown| == 0 ==>
              FromNotionBulletedListItemBlock(richText, childMarkdown) == "- " + RichTextMarkdown(richText)
    ensures |childMarkdown| > 0 ==>
              FromNotionBulletedListItemBlock(richText, childMarkdown)
              == TrimEnd("- " + RichTextMarkdown(richText) + "\n"
                         + PrefixLines("    ", Join(childMarkdown, "\n")))
  {
    var item := "- " + RichTextMarkdown(richText);
    if |childMarkdown| > 0 {
      var u := IndentedLayout(item, "    ", childMarkdown);
      IndentedLayoutLines(item, "    ", childMarkdown);
      assert "-" <= u;
      TrimKeepsMarker("-", u);
    }
  }

  /** A numbered item always starts with `1. `, and without children it is
      `1. ` and the text; with children, the children's lines are all kept,
      indented by four spaces, with nothing trimmed. */
  lemma NumberedShape(richText: seq<Span>, childMarkdown: seq<string>)
    ensures "1. " <= FromNotionNumberedListItemBlock(richText, childMarkdown)
    ensures |childMarkdown| == 0 ==>
              FromNotionNumberedListItemBlock(richText, childMarkdown) == "1. " + RichTextMarkdown(richText)
    ensures |childMarkdown| > 0 ==>
      Lines(FromNotionNumberedListItemBlock(richText, childMarkdown))
        == Lines("1. " + RichTextMarkdown(richText))
           + PrefixAll("    ", Lines(Join(childMarkdown, "\n")))
  {
    if |childMarkdown| > 0 {
      IndentedLayoutLines("1. " + RichTextMarkdown(richText), "    ", childMarkdown);
    }
  }

  /** Trimming aside, a bulleted item is the numbered item with `-` in place
      of `1.`. */
  lemma BulletedIsTrimmedNumbered(richText: seq<Span>, childMarkdown: seq<string>)
    requires |childMarkdown| > 0
    ensures var n := FromNotionNumberedListItemBlock(richText, childMarkdown);
      FromNotionBulletedListItemBlock(richText, childMarkdown) == Trim("- " + n[3..])
  {
    var text := RichTextMarkdown(richText);
    var j := Join(PrefixEach("    ", childMarkdown), "\n");
    var n := FromNotionNumberedListItemBlock(richText, childMarkdown);
    AppendAssoc("1. " + text, "\n", j);
    AppendAssoc("1. ", text, "\n" + j);
    DropPrefix("1. ", text + ("\n" + j));
    assert n[3..] == text + ("\n" + j);
    AppendAssoc("- " + text, "\n", j);
    AppendAssoc("- ", text, "\n" + j);
  }

  // ---------------------------------------------------------------------
  // Properties of the toggle and column layouts

  /** A toggle always starts with its bold title; with children it adds a
      blank line, then the non-empty children separated by blank lines, so
      children that all render empty leave `**title**` and a blank line. */
  lemma ToggleShape(richText: seq<Span>, childMarkdown: seq<string>)
    ensures "**" + RichTextMarkdown(richText) + "**" <= FromNotionToggleBlock(richText, childMarkdown)
    ensures |childMarkdown| == 0 ==>
              FromNotionToggleBlock(richText, childMarkdown) == "**" + RichTextMarkdown(richText) + "**"
    ensures |childMarkdown| > 0 ==>
              FromNotionToggleBlock(richText, childMarkdown)
              == "**" + RichTextMarkdown(richText) + "**\n\n" + FromNotionColumnListBlock(childMarkdown)
    ensures |childMarkdown| > 0 && NonEmpty(childMarkdown) == [] ==>
      FromNotionToggleBlock(richText, childMarkdown) == "**" + RichTextMarkdown(richText) + "**\n\n"
  {
    var title := "**" + RichTextMarkdown(richText) + "**";
    if |childMarkdown| > 0 {
      var rest := Join(NonEmpty(childMarkdown), "\n\n");
      AppendAssoc(title, "\n\n", rest);
      AppendAssoc("**" + RichTextMarkdown(richText), "**", "\n\n");
      assert "**" + "\n\n" == "**\n\n";
      if NonEmpty(childMarkdown) == [] {
        assert title + "\n\n" + rest == title + "\n\n";
      }
    }
  }

  /** A toggle skips a child that renders empty when others remain. */
  lemma ToggleSkipsEmptyChild(richText: seq<Span>, a: seq<string>, b: seq<string>)
    requires |a + b| > 0
    ensures FromNotionToggleBlock(richText, a + [""] + b) == FromNotionToggleBlock(richText, a + b)
  {
    NonEmptySkipsEmpty(a, b);
  }

  /** Columns render as nothing exactly when every child renders as
      nothing. */
  lemma ColumnsEmpty(childMarkdown: seq<string>)
    ensures FromNotionColumnListBlock(childMarkdown) == ""
      <==> forall i :: 0 <= i < |childMarkdown| ==> childMarkdown[i] == ""
  {
    JoinNonEmptyParts(NonEmpty(childMarkdown), "\n\n");
  }

  /** Columns ignore children that render empty, wherever they are. */
  lemma ColumnsSkipEmptyChild(a: seq<string>, b: seq<string>)
    ensures FromNotionColumnListBlock(a + [""] + b) == FromNotionColumnListBlock(a + b)
  {
    NonEmptySkipsEmpty(a, b);
  }

  /** Columns whose children all render non-empty are those children
      separated by blank lines, in order. */
  lemma ColumnsKeepOrder(childMarkdown: seq<string>)
    requires forall i :: 0 <= i < |childMarkdown| ==> childMarkdown[i] != ""
    ensures FromNotionColumnListBlock(childMarkdown) == Join(childMarkdown, "\n\n")
  {
    NonEmptyNoEmpty(childMarkdown);
  }
}
