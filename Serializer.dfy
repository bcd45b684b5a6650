/** `fromNotionBlock`: the dispatch from a block's type to its serializer,
    and the recursion through the children of the container blocks. */
module Serializer {
  import opened Strings
  import opened RichText
  import opened Blocks
  import opened LeafBlocks
  import opened TableBlock
  import opened Containers

  /** The start of the comment left for a block type with no serializer. */
  const PlaceholderOpen: string := "<!-- 未対応のブロックタイプ: "

  /** The HTML comment left in place of a block of a type with no
      serializer: the type tag, verbatim, inside the comment. */
  function Placeholder(tag: string): (r: string)
    ensures |r| == |PlaceholderOpen| + |tag| + 4
    ensures PlaceholderOpen <= r && r[|r| - 4..] == " -->"
    ensures r[|PlaceholderOpen|..|r| - 4] == tag
  {
    PlaceholderOpen + tag + " -->"
  }

  /** The Markdown of one block. */
  function FromNotionBlock(b: Block): string
    decreases Size(b), 0
  {
    match b.kind
    case Paragraph(rt) => FromNotionParagraphBlock(rt)
    case Heading1(rt) => FromNotionHeadingBlock("#", rt)
    case Heading2(rt) => FromNotionHeadingBlock("##", rt)
    case Heading3(rt) => FromNotionHeadingBlock("###", rt)
    case BulletedListItem(rt) => FromNotionBulletedListItemBlock(rt, FromNotionBlocks(b.children))
    case NumberedListItem(rt) => FromNotionNumberedListItemBlock(rt, FromNotionBlocks(b.children))
    case Code(rt, language) => FromNotionCodeBlock(rt, language)
    case Quote(rt) => FromNotionQuoteBlock(rt, FromNotionBlocks(b.children))
    case Callout(rt, icon) => FromNotionCalloutBlock(rt, icon, FromNotionBlocks(b.children))
    case Divider => FromNotionDividerBlock()
    case ToDo(rt, checked) => FromNotionToDoBlock(rt, checked, FromNotionBlocks(b.children))
    case Toggle(rt) => FromNotionToggleBlock(rt, FromNotionBlocks(b.children))
    case Image(file, caption) => FromNotionImageBlock(file, caption)
    case Video(file, _) => FromNotionVideoBlock(file)
    case File(file, _, _) => FromNotionFileBlock(file)
    case Pdf(file, _) => FromNotionPdfBlock(file)
    case Audio(file, _) => FromNotionAudioBlock(file)
    case Embed(url, _) => url
    case Bookmark(url, _) => url
    case LinkPreview(url) => url
    case Table(_, _, _) => TableMarkdown(b.children)
    case Equation(expression) => FromNotionEquationBlock(expression)
    case ColumnList => FromNotionColumnListBlock(FromNotionBlocks(b.children))
    case Column => FromNotionColumnListBlock(FromNotionBlocks(b.children))
    case ChildPage(title) => FromNotionChildPageBlock(b.id, title)
    case ChildDatabase(title) => FromNotionChildDatabaseBlock(b.id, title)
    case LinkToPage(target) => FromNotionLinkToPageBlock(target)
    case TableRow(_) => Placeholder("table_row")
    case Other(tag) => Placeholder(tag)
  }

  /** `blocks.map((child) => fromNotionBlock(child))`. */
  function FromNotionBlocks(bs: seq<Block>): (r: seq<string>)
    decreases SizeAll(bs), 1
    ensures |r| == |bs|
  {
    if bs == [] then [] else [FromNotionBlock(bs[0])] + FromNotionBlocks(bs[1..])
  }

  // ---------------------------------------------------------------------
  // The children's Markdown

  /** Each child is rendered on its own, in order. */
  lemma {:induction false} FromNotionBlocksAt(bs: seq<Block>, i: int)
    requires 0 <= i < |bs|
    ensures FromNotionBlocks(bs)[i] == FromNotionBlock(bs[i])
  {
    if i > 0 {
      FromNotionBlocksAt(bs[1..], i - 1);
    }
  }

  /** A non-empty list renders as its first block, then the others. */
  lemma FromNotionBlocksCons(bs: seq<Block>)
    requires bs != []
    ensures FromNotionBlocks(bs) == [FromNotionBlock(bs[0])] + FromNotionBlocks(bs[1..])
  {
  }

  /** Rendering a list of blocks distributes over concatenation. */
  lemma {:induction false} FromNotionBlocksAppend(a: seq<Block>, b: seq<Block>)
    ensures FromNotionBlocks(a + b) == FromNotionBlocks(a) + FromNotionBlocks(b)
  {
    if a == [] {
      assert a + b == b;
    } else {
      var ab := a + b;
      assert ab[0] == a[0];
      assert ab[1..] == a[1..] + b;
      FromNotionBlocksCons(ab);
      FromNotionBlocksCons(a);
      FromNotionBlocksAppend(a[1..], b);
      AppendAssoc([FromNotionBlock(a[0])], FromNotionBlocks(a[1..]), FromNotionBlocks(b));
    }
  }

  // ---------------------------------------------------------------------
  // Dispatch

  /** The blocks whose serializer reads their children. */
  predicate IsContainer(k: Kind)
  {
    k.Quote? || k.Callout? || k.ToDo? || k.BulletedListItem? || k.NumberedListItem?
    || k.Toggle? || k.ColumnList? || k.Column? || k.Table?
  }

  /** A block of a type with no serializer, `table_row` outside a table
      included, becomes the placeholder comment naming its type; the
      serializers of all other types are reached. */
  lemma UnsupportedTypes(b: Block)
    ensures b.kind.Other? || b.kind.TableRow? ==> FromNotionBlock(b) == Placeholder(TypeTag(b.kind))
    ensures b.kind.Other? ==> TypeTag(b.kind) !in KnownTags
  {
  }

  /** The output of a block that is not a container does not depend on its
      children. */
  lemma LeafIgnoresChildren(b: Block, children: seq<Block>)
    requires !IsContainer(b.kind)
    ensures FromNotionBlock(b.(children := children)) == FromNotionBlock(b)
  {
  }

  /** Only child pages and child databases link to the block's own id. */
  lemma IdOnlyForChildLinks(b: Block, id: string)
    requires !b.kind.ChildPage? && !b.kind.ChildDatabase?
    ensures FromNotionBlock(b.(id := id)) == FromNotionBlock(b)
  {
  }

  /** A column renders as a column list with the same children. */
  lemma ColumnIsColumnList(id: string, children: seq<Block>)
    ensures FromNotionBlock(Block(id, Column, children)) == FromNotionBlock(Block(id, ColumnList, children))
  {
  }

  /** Embeds, bookmarks and link previews render as their bare URL; the
      caption is not read. */
  lemma UrlBlocks(b: Block)
    ensures b.kind.Embed? || b.kind.Bookmark? || b.kind.LinkPreview? ==> FromNotionBlock(b) == b.kind.url
  {
  }

  /** The video, audio, file and PDF blocks read only the URL of their file,
      not whether it is hosted or external, nor the caption. */
  lemma MediaReadsOnlyUrl(b: Block, file: FileRef)
    requires b.kind.Video? || b.kind.Audio? || b.kind.File? || b.kind.Pdf?
    requires file.url == b.kind.file.url
    ensures FromNotionBlock(b.(kind := b.kind.(file := file, caption := []))) == FromNotionBlock(b)
  {
  }

  /** A link to a Notion page holds no dash: the id loses its dashes, the
      origin has none, and a child page or database adds only its title. */
  lemma NotionLinksHaveNoDash(b: Block)
    requires b.kind.LinkToPage? || ((b.kind.ChildPage? || b.kind.ChildDatabase?) && '-' !in b.kind.title)
    ensures '-' !in FromNotionBlock(b)
  {
    assert '-' !in NotionOrigin;
  }

  // ---------------------------------------------------------------------
  // The container serializers reached by the dispatch

  /** A quote block is laid out from its rich text and its children's
      Markdown. */
  lemma QuoteDispatch(id: string, richText: seq<Span>, children: seq<Block>)
    ensures FromNotionBlock(Block(id, Quote(richText), children))
      == FromNotionQuoteBlock(richText, FromNotionBlocks(children))
  {
  }

  /** A callout block is laid out from its rich text, its icon and its
      children's Markdown. */
  lemma CalloutDispatch(id: string, richText: seq<Span>, icon: Icon, children: seq<Block>)
    ensures FromNotionBlock(Block(id, Callout(richText, icon), children))
      == FromNotionCalloutBlock(richText, icon, FromNotionBlocks(children))
  {
  }

  /** A toggle block is laid out from its rich text and its children's
      Markdown. */
  lemma ToggleDispatch(id: string, richText: seq<Span>, children: seq<Block>)
    ensures FromNotionBlock(Block(id, Toggle(richText), children))
      == FromNotionToggleBlock(richText, FromNotionBlocks(children))
  {
  }

  /** A numbered list item is laid out from its rich text and its children's
      Markdown. */
  lemma NumberedDispatch(id: string, richText: seq<Span>, children: seq<Block>)
    ensures FromNotionBlock(Block(id, NumberedListItem(richText), children))
      == FromNotionNumberedListItemBlock(richText, FromNotionBlocks(children))
  {
  }

  /** A column list is laid out from its children's Markdown. */
  lemma ColumnListDispatch(id: string, children: seq<Block>)
    ensures FromNotionBlock(Block(id, ColumnList, children))
      == FromNotionColumnListBlock(FromNotionBlocks(children))
  {
  }

  /** A column is laid out as a column list from its children's Markdown. */
  lemma ColumnDispatch(id: string, children: seq<Block>)
    ensures FromNotionBlock(Block(id, Column, children))
      == FromNotionColumnListBlock(FromNotionBlocks(children))
  {
  }

  // ---------------------------------------------------------------------
  // Nesting

  /** A quote whose children all render to something has every child's lines
      behind `> `: the quote's lines are its own text's and its children's,
      each with `> ` in front. */
  lemma QuoteBlockLines(b: Block)
    requires b.kind.Quote? && |b.children| > 0
    requires forall i :: 0 <= i < |b.children| ==> FromNotionBlock(b.children[i]) != ""
    ensures Lines(FromNotionBlock(b)) == PrefixAll("> ",
      Lines(RichTextMarkdown(b.kind.richText)) + Lines(Join(FromNotionBlocks(b.children), "\n")))
  {
    var mds := FromNotionBlocks(b.children);
    forall i | 0 <= i < |mds| ensures mds[i] != "" {
      FromNotionBlocksAt(b.children, i);
    }
    NonEmptyNoEmpty(mds);
    QuoteWithChildren(RichTextMarkdown(b.kind.richText), mds);
  }

  /** A quote inside a quote: the inner quote's lines are behind `> > `. */
  lemma QuoteInQuote(id1: string, outer: seq<Span>, id2: string, inner: seq<Span>)
    ensures FromNotionBlock(Block(id1, Quote(outer), [Block(id2, Quote(inner), [])]))
      == PrefixLines("> ", RichTextMarkdown(outer)) + "\n" + PrefixLines("> > ", RichTextMarkdown(inner))
  {
    var child := Block(id2, Quote(inner), []);
    QuoteDispatch(id2, inner, []);
    QuoteDispatch(id1, outer, [child]);
    assert FromNotionBlock(child) == QuoteLayout(RichTextMarkdown(inner), []);
    assert FromNotionBlocks([child]) == [FromNotionBlock(child)] by {
      assert [child][1..] == [];
    }
    NestedQuote(RichTextMarkdown(outer), RichTextMarkdown(inner));
  }
}
