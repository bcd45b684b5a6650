/** The Notion block tree the serializer reads (the `BlockType` tags and the
    `NotionBlock` shape of lib/types.ts): a block is an id, a type with its
    payload, and the children the caller has already fetched. */
module Blocks {
  import opened RichText

  /** The target of a `link_to_page` block: a page, a database, or a target
      of any other `link_to_page.type`, which carries only that type. */
  datatype LinkTarget =
    | PageTarget(pageId: string)
    | DatabaseTarget(databaseId: string)
    | OtherTarget(targetType: string)

  /** Every type tag of `BlockType` that Notion gives a block, `table_row`
      included. */
  const KnownTags: set<string> := {
    "paragraph", "heading_1", "heading_2", "heading_3",
    "bulleted_list_item", "numbered_list_item", "code", "quote", "callout",
    "to_do", "toggle", "divider", "image", "video", "audio", "file", "pdf",
    "embed", "bookmark", "link_preview", "link_to_page", "child_page",
    "child_database", "table", "table_row", "column_list", "column", "equation"
  }

  /** The tag of any other block type (`breadcrumb`, `synced_block`, ...). */
  type UnknownTag = t: string | t !in KnownTags witness "breadcrumb"

  /** A block's type together with the payload the serializer reads. */
  datatype Kind =
    | Paragraph(richText: seq<Span>)
    | Heading1(richText: seq<Span>)
    | Heading2(richText: seq<Span>)
    | Heading3(richText: seq<Span>)
    | BulletedListItem(richText: seq<Span>)
    | NumberedListItem(richText: seq<Span>)
    | Code(richText: seq<Span>, language: string)
    | Quote(richText: seq<Span>)
    | Callout(richText: seq<Span>, icon: Icon)
    | ToDo(richText: seq<Span>, checked: bool)
    | Toggle(richText: seq<Span>)
    | Divider
    | Image(file: FileRef, caption: seq<Span>)
    | Video(file: FileRef, caption: seq<Span>)
    | Audio(file: FileRef, caption: seq<Span>)
    | File(file: FileRef, caption: seq<Span>, name: string)
    | Pdf(file: FileRef, caption: seq<Span>)
    | Embed(url: string, caption: seq<Span>)
    | Bookmark(url: string, caption: seq<Span>)
    | LinkPreview(url: string)
    | LinkToPage(target: LinkTarget)
    | ChildPage(title: string)
    | ChildDatabase(title: string)
    | Table(tableWidth: nat, hasColumnHeader: bool, hasRowHeader: bool)
    | TableRow(cells: seq<seq<Span>>)
    | ColumnList
    | Column
    | Equation(expression: string)
    | Other(tag: UnknownTag)

  /** A block with its children, in order. */
  datatype Block = Block(id: string, kind: Kind, children: seq<Block>)

  /** The `type` field of a block of this kind. */
  function TypeTag(k: Kind): string
  {
    match k
    case Paragraph(_) => "paragraph"
    case Heading1(_) => "heading_1"
    case Heading2(_) => "heading_2"
    case Heading3(_) => "heading_3"
    case BulletedListItem(_) => "bulleted_list_item"
    case NumberedListItem(_) => "numbered_list_item"
    case Code(_, _) => "code"
    case Quote(_) => "quote"
    case Callout(_, _) => "callout"
    case ToDo(_, _) => "to_do"
    case Toggle(_) => "toggle"
    case Divider => "divider"
    case Image(_, _) => "image"
    case Video(_, _) => "video"
    case Audio(_, _) => "audio"
    case File(_, _, _) => "file"
    case Pdf(_, _) => "pdf"
    case Embed(_, _) => "embed"
    case Bookmark(_, _) => "bookmark"
    case LinkPreview(_) => "link_preview"
    case LinkToPage(_) => "link_to_page"
    case ChildPage(_) => "child_page"
    case ChildDatabase(_) => "child_database"
    case Table(_, _, _) => "table"
    case TableRow(_) => "table_row"
    case ColumnList => "column_list"
    case Column => "column"
    case Equation(_) => "equation"
    case Other(t) => t
  }

  // Each `block.type === tag` test of the dispatch selects exactly one
  // kind of block, so dispatching on the kind is dispatching on the tag.

  /** The tags of paragraphs and headings. */
  lemma TagSelectsParagraphKind(k: Kind)
    ensures TypeTag(k) == "paragraph" <==> k.Paragraph?
    ensures TypeTag(k) == "heading_1" <==> k.Heading1?
    ensures TypeTag(k) == "heading_2" <==> k.Heading2?
    ensures TypeTag(k) == "heading_3" <==> k.Heading3?
  {
    if k.Other? {
      assert k.tag !in KnownTags;
    }
  }

  /** The tags of list items, code and quotes. */
  lemma TagSelectsListKind(k: Kind)
    ensures TypeTag(k) == "bulleted_list_item" <==> k.BulletedListItem?
    ensures TypeTag(k) == "numbered_list_item" <==> k.NumberedListItem?
    ensures TypeTag(k) == "code" <==> k.Code?
    ensures TypeTag(k) == "quote" <==> k.Quote?
  {
    if k.Other? {
      assert k.tag !in KnownTags;
    }
  }

  /** The tags of callouts, dividers, to-dos and toggles. */
  lemma TagSelectsBoxKind(k: Kind)
    ensures TypeTag(k) == "callout" <==> k.Callout?
    ensures TypeTag(k) == "divider" <==> k.Divider?
    ensures TypeTag(k) == "to_do" <==> k.ToDo?
    ensures TypeTag(k) == "toggle" <==> k.Toggle?
  {
    if k.Other? {
      assert k.tag !in KnownTags;
    }
  }

  /** The tags of images, videos, files and PDFs. */
  lemma TagSelectsImageKind(k: Kind)
    ensures TypeTag(k) == "image" <==> k.Image?
    ensures TypeTag(k) == "video" <==> k.Video?
    ensures TypeTag(k) == "file" <==> k.File?
    ensures TypeTag(k) == "pdf" <==> k.Pdf?
  {
    if k.Other? {
      assert k.tag !in KnownTags;
    }
  }

  /** The tags of audio, embeds, bookmarks and link previews. */
  lemma TagSelectsLinkKind(k: Kind)
    ensures TypeTag(k) == "audio" <==> k.Audio?
    ensures TypeTag(k) == "embed" <==> k.Embed?
    ensures TypeTag(k) == "bookmark" <==> k.Bookmark?
    ensures TypeTag(k) == "link_preview" <==> k.LinkPreview?
  {
    if k.Other? {
      assert k.tag !in KnownTags;
    }
  }

  /** The tags of tables, equations and columns. */
  lemma TagSelectsTableKind(k: Kind)
    ensures TypeTag(k) == "table" <==> k.Table?
    ensures TypeTag(k) == "equation" <==> k.Equation?
    ensures TypeTag(k) == "column_list" <==> k.ColumnList?
    ensures TypeTag(k) == "column" <==> k.Column?
  {
    if k.Other? {
      assert k.tag !in KnownTags;
    }
  }

  /** The tags of child pages, child databases, page links and table rows. */
  lemma TagSelectsPageKind(k: Kind)
    ensures TypeTag(k) == "child_page" <==> k.ChildPage?
    ensures TypeTag(k) == "child_database" <==> k.ChildDatabase?
    ensures TypeTag(k) == "link_to_page" <==> k.LinkToPage?
    ensures TypeTag(k) == "table_row" <==> k.TableRow?
  {
    if k.Other? {
      assert k.tag !in KnownTags;
    }
  }

  /** The tags of the other block types are the unknown ones. */
  lemma TagKnownIffSupported(k: Kind)
    ensures TypeTag(k) in KnownTags <==> !k.Other?
  {
  }

  /** The number of blocks in a tree. */
  ghost function Size(b: Block): nat
  {
    1 + SizeAll(b.children)
  }

  /** The number of blocks in a forest. */
  ghost function SizeAll(bs: seq<Block>): nat
  {
    if bs == [] then 0 else Size(bs[0]) + SizeAll(bs[1..])
  }
}
