/** The serializers of the blocks that have no nested content: each turns
    the block's payload into one short Markdown string. */
module LeafBlocks {
  import opened Strings
  import opened RichText
  import opened Blocks

  /** The origin every Notion page and database link points to. */
  const NotionOrigin: string := "https://www.notion.so/"

  /** The link to a page or database: the origin and the id without dashes. */
  function NotionUrl(id: string): (r: string)
    ensures NotionOrigin <= r
    ensures r[|NotionOrigin|..] == RemoveDashes(id) && '-' !in r[|NotionOrigin|..]
  {
    NotionOrigin + RemoveDashes(id)
  }

  /** Removing the dashes of a string extended by a dash and a group
      without dashes extends the result by that group. */
  lemma RemoveDashesThenGroup(prefix: string, g: string)
    requires '-' !in g
    ensures RemoveDashes(prefix + "-" + g) == RemoveDashes(prefix) + g
  {
    RemoveDashesNoDash(g);
    RemoveDashesAround(prefix, g);
  }

  /** Removing the dashes of an id in the dashed UUID layout runs its
      groups together, in order. */
  lemma RemoveDashesOfGroups(g1: string, g2: string, g3: string, g4: string, g5: string)
    requires '-' !in g1 && '-' !in g2 && '-' !in g3 && '-' !in g4 && '-' !in g5
    ensures RemoveDashes(g1 + "-" + g2 + "-" + g3 + "-" + g4 + "-" + g5) == g1 + g2 + g3 + g4 + g5
  {
    RemoveDashesNoDash(g1);
    RemoveDashesThenGroup(g1, g2);
    RemoveDashesThenGroup(g1 + "-" + g2, g3);
    RemoveDashesThenGroup(g1 + "-" + g2 + "-" + g3, g4);
    RemoveDashesThenGroup(g1 + "-" + g2 + "-" + g3 + "-" + g4, g5);
  }

  /** The link of an id in the dashed UUID layout is the origin followed by
      the id's groups, run together in order. */
  lemma NotionUrlOfGroups(g1: string, g2: string, g3: string, g4: string, g5: string)
    requires '-' !in g1 && '-' !in g2 && '-' !in g3 && '-' !in g4 && '-' !in g5
    ensures NotionUrl(g1 + "-" + g2 + "-" + g3 + "-" + g4 + "-" + g5)
      == NotionOrigin + (g1 + g2 + g3 + g4 + g5)
  {
    RemoveDashesOfGroups(g1, g2, g3, g4, g5);
  }

  /** `fromNotionParagraphBlock` (not part of this model): a paragraph
      renders as its rich text, as the tests of the column serializers show. */
  function FromNotionParagraphBlock(richText: seq<Span>): string
  {
    RichTextMarkdown(richText)
  }

  /** `fromNotionHeadingOneBlock`, `...TwoBlock`, `...ThreeBlock` (not part
      of this model): assumed to be `#` markers, a space and the rich text. */
  function FromNotionHeadingBlock(marker: string, richText: seq<Span>): string
  {
    marker + " " + RichTextMarkdown(richText)
  }

  /** `fromNotionCodeBlock` (not part of this model): assumed to be a fenced
      code block with the language after the opening fence. */
  function FromNotionCodeBlock(richText: seq<Span>, language: string): string
  {
    "```" + language + "\n" + RichTextMarkdown(richText) + "\n```"
  }

  /** The image's alt text: the caption, or `image` when it renders empty. */
  function ImageAlt(caption: seq<Span>): (alt: string)
    ensures alt != ""
    ensures RichTextMarkdown(caption) != "" ==> alt == RichTextMarkdown(caption)
    ensures RichTextMarkdown(caption) == "" ==> alt == "image"
  {
    var text := RichTextMarkdown(caption);
    if text != "" then text else "image"
  }

  /** `fromNotionImageBlock`: an image without a URL is dropped; any other
      image is `![alt](url)`. */
  function FromNotionImageBlock(file: FileRef, caption: seq<Span>): (r: string)
    ensures r == "" <==> file.url == ""
    ensures r != "" ==> r == "![" + ImageAlt(caption) + "](" + file.url + ")"
  {
    var alt := ImageAlt(caption);
    var url := ExtractFileUrl(file);
    if url == "" then "" else "![" + alt + "](" + url + ")"
  }

  /** `fromNotionVideoBlock`: the bare URL of either kind of reference. */
  function FromNotionVideoBlock(file: FileRef): (r: string)
    ensures r == file.url
  {
    ExtractFileUrl(file)
  }

  /** A Markdown link with a fixed label, dropped when the URL is empty. */
  function LabelledLink(linkText: string, url: string): (r: string)
    ensures r == "" <==> url == ""
  {
    if url == "" then "" else "[" + linkText + "](" + url + ")"
  }

  /** `fromNotionAudioBlock`: `[音声](url)`, or nothing without a URL. */
  function FromNotionAudioBlock(file: FileRef): (r: string)
    ensures r == "" <==> file.url == ""
    ensures r != "" ==> r == "[音声](" + file.url + ")"
  {
    LabelledLink("音声", ExtractFileUrl(file))
  }

  /** `fromNotionFileBlock`: `[ファイル](url)`, or nothing without a URL. */
  function FromNotionFileBlock(file: FileRef): (r: string)
    ensures r == "" <==> file.url == ""
    ensures r != "" ==> r == "[ファイル](" + file.url + ")"
  {
    LabelledLink("ファイル", ExtractFileUrl(file))
  }

  /** `fromNotionPdfBlock`: `[PDF](url)`, or nothing without a URL. */
  function FromNotionPdfBlock(file: FileRef): (r: string)
    ensures r == "" <==> file.url == ""
    ensures r != "" ==> r == "[PDF](" + file.url + ")"
  {
    LabelledLink("PDF", ExtractFileUrl(file))
  }

  /** `fromNotionEquationBlock`: the expression, unaltered, between two `$`. */
  function FromNotionEquationBlock(expression: string): (r: string)
    ensures |r| == |expression| + 2
    ensures r[0] == '$' && r[|r| - 1] == '$'
    ensures r[1..|r| - 1] == expression
  {
    "$" + expression + "$"
  }

  /** `fromNotionDividerBlock`: a thematic break, whatever the block holds. */
  function FromNotionDividerBlock(): (r: string)
    ensures r == "---"
  {
    "---"
  }

  /** The title, verbatim, linked to a Notion id without its dashes: `[`,
      the title, `](`, the origin, the dash-free id and `)`. */
  function TitledNotionLink(title: string, id: string): (r: string)
    ensures "[" + title + "](" + NotionOrigin <= r && r[|r| - 1] == ')'
    ensures r[|title| + 3 + |NotionOrigin|..|r| - 1] == RemoveDashes(id)
  {
    var r := "[" + title + "](" + NotionUrl(id) + ")";
    assert r == ("[" + title + "](" + NotionOrigin) + RemoveDashes(id) + ")";
    r
  }

  /** `fromNotionChildPageBlock`: the page title linked to the block's id. */
  function FromNotionChildPageBlock(id: string, title: string): (r: string)
    ensures r == TitledNotionLink(title, id)
  {
    TitledNotionLink(title, id)
  }

  /** `fromNotionChildDatabaseBlock`: the database title linked to the
      block's id. */
  function FromNotionChildDatabaseBlock(id: string, title: string): (r: string)
    ensures r == TitledNotionLink(title, id)
  {
    TitledNotionLink(title, id)
  }

  /** `fromNotionLinkToPageBlock`: the page or database URL; nothing for any
      other kind of target. */
  function FromNotionLinkToPageBlock(target: LinkTarget): (r: string)
    ensures target.PageTarget? ==> r == NotionUrl(target.pageId)
    ensures target.DatabaseTarget? ==> r == NotionUrl(target.databaseId)
    ensures r == "" <==> target.OtherTarget?
  {
    match target
    case PageTarget(pageId) => NotionUrl(pageId)
    case DatabaseTarget(databaseId) => NotionUrl(databaseId)
    case OtherTarget(_) => ""
  }
}
