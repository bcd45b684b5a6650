# Notion blocks to Markdown

This project models the Markdown serializer of open-notion-client. The
serializer is `fromNotionBlock` and the per-type serializers it dispatches to,
together with the rich-text, file and icon helpers of `lib/utils.ts`. The model
also proves properties of it.

A Notion block has an id, a type tag with a payload, and the children the
caller has already fetched. `fromNotionBlock` picks a serializer by the type
tag. Blocks of an unknown type, and a `table_row` met outside a table, are
replaced by an HTML comment naming the type.

- Leaf blocks:
  - paragraphs, headings, code, equations and dividers;
  - media (image, video, audio, file, PDF);
  - URL blocks (embed, bookmark, link preview);
  - links to Notion pages (child page, child database, link to page).
- Container blocks: these recurse through `fromNotionBlock` on their children.
  - Quote and callout: each line behind `> `.
  - To-do and list items: children indented under the item.
  - Toggle, column list and column: children separated by blank lines.
  - Table: a GitHub Flavored Markdown table, in the form of section 4.10 of
    the GFM specification, with no pipe escaping.

Rich text renders one span at a time. The span's plain text is wrapped in this
order, inside out: bold `**`, italic `*`, strikethrough `~~`, code `` ` ``,
then a `[..](href)` link when `href` is truthy. The spans are concatenated with
no separator.

Layout of the model:

- `Strings` models the JavaScript string operations the serializers use:
  - `split` on one character and `join`;
  - `replace(/-/g, "")`;
  - `trim`, with the full ECMAScript whitespace set;
  - `filter((md) => md !== "")`;
  - the "prefix every line" idiom.
- `RichText` models `lib/utils.ts`. `FromNotionRichTextItem` is a method with
  the source's loop, proved equal to the function `RichTextMarkdown`.
- `Blocks` holds the block tree. `UnknownTag` is a subset type excluding the 28
  known tags, so dispatching on the kind is dispatching on the tag string.
  `BlockType` in `lib/types.ts` also lists `title`; the dispatcher has no branch
  for it, so the model treats it as an unknown tag that gets the placeholder.
- `LeafBlocks` and `Containers` hold the per-type serializers.
  - A container serializer takes its own payload and its children's
    already-rendered Markdown, in order.
  - The recursion itself lives in `Serializer`.
- `TableBlock` holds `FromNotionTableBlock`, a method with the source's loops,
  proved equal to the function `TableMarkdown`.
- `Serializer` holds the mutually recursive `FromNotionBlock` and
  `FromNotionBlocks` (`block.children.map(fromNotionBlock)`).
- `Examples` proves, against the model, the expected outputs of these tests
  under `lib/from-notion-block/`:
  - the quote, callout, to-do and toggle tests, with and without a child;
  - the column and column-list tests, with two children and with none;
  - the table tests, with rows and with no children;
  - the image, audio, file, PDF, equation and link-preview tests;
  - the child page, child database and link-to-page tests, and their
    "no dash left in the id" tests (`Serializer.NotionLinksHaveNoDash`).

  Tests of the other serializers, such as paragraph, heading and code, are not
  part of this model.

## Model

| member | source | states |
|---|---|---|
| RichText.FromNotionRichTextItem | lib/utils.ts:14-39 | The loop's result is `RichTextMarkdown` of the span list: the empty list gives `""`, and each span's Markdown is appended in order. |
| RichText.SpanMarkdown | lib/utils.ts:22-33 | Specification function of one span, with no contract of its own. `SpanLayout`, `PlainSpanIsText`, `UnderlineIgnored`, `LinkWrapsAnnotatedText`, `BoldInsideCode` and `AllAnnotationsOrder` state its properties. |
| RichText.RichTextMarkdown | lib/utils.ts:14-39 | Specification function of the loop, with no contract of its own. `FromNotionRichTextItem` is proved equal to it, and `RichTextAppend`, `RichTextLast` and `RichTextSingle` state its properties. |
| RichText.SpanLayout | lib/utils.ts:22-33 | A span's Markdown is its plain text verbatim, between the opening markers (link, code, strikethrough, italic, bold) and the closing markers in the reverse order. |
| RichText.RichTextAppend | lib/utils.ts:21-36 | Rendering a span list distributes over concatenation: each span renders independently of its neighbours. |
| RichText.RichTextLast | lib/utils.ts:21-36 | A non-empty list renders as all but its last span, followed by the last span. |
| RichText.RichTextSingle | lib/utils.ts:21-36 | A one-span list renders as that span. |
| RichText.PlainSpanIsText | lib/utils.ts:22-33 | A span with no annotation and no link renders as its plain text. |
| RichText.UnderlineIgnored | lib/utils.ts:24-29 | The underline annotation never changes the output. |
| RichText.LinkWrapsAnnotatedText | lib/utils.ts:31-33 | An absent or empty `href` adds nothing; otherwise the annotated text is wrapped as `[..](href)`. |
| RichText.BoldInsideCode | lib/utils.ts:25-28 | Bold together with code gives `` `**t**` ``: code goes outside bold. |
| RichText.AllAnnotationsOrder | lib/utils.ts:24-33 | All four annotations plus a link nest as ``[`~~***t***~~`](url)``. |
| RichText.ExtractFileUrl | lib/utils.ts:73-81 | The URL of an external or Notion-hosted file object, whichever kind it is. |
| RichText.ExtractIconText | lib/utils.ts:86-94 | An emoji icon yields its emoji; `null` and every other icon kind yield `""`. |
| Strings.Split | lib/from-notion-block/from-notion-quote-block.ts:10 | `split` on one character gives one more piece than there are separators, and no piece holds the separator. |
| Strings.Join | lib/from-notion-block/from-notion-table-block.ts:45 | `join` starts with the first part. |
| Strings.JoinSplit | lib/from-notion-block/from-notion-quote-block.ts:10 | Joining the pieces of a split back with the same separator gives the original string. |
| Strings.SplitJoinNoSep | lib/from-notion-block/from-notion-table-block.ts:45 | Splitting a join of separator-free parts gives the parts back. |
| Strings.SplitAppend | lib/from-notion-block/from-notion-callout-block.ts:13 | A separator between two strings splits into the pieces of both sides. |
| Strings.JoinAppend | lib/from-notion-block/from-notion-callout-block.ts:29 | Joining two non-empty lists puts exactly one separator between them. |
| Strings.JoinAvoids | lib/from-notion-block/from-notion-table-block.ts:34 | A join whose parts and separator lack a character lacks it too. |
| Strings.PrefixAll | lib/from-notion-block/from-notion-quote-block.ts:10 | Each line gains the prefix, and the number of lines is kept. |
| Strings.PrefixEach | lib/from-notion-block/from-notion-quote-block.ts:19-24 | Each child's Markdown has its lines prefixed, in order, with one result per child. |
| Strings.LinesOfPrefixLines | lib/from-notion-block/from-notion-quote-block.ts:10 | The lines of a prefixed string are the original lines, each with the prefix once. |
| Strings.PrefixLinesCompose | lib/from-notion-block/from-notion-quote-block.ts:16-24 | Prefixing lines twice is prefixing them once with both prefixes, the outer first. |
| Strings.PrefixEachJoin | lib/from-notion-block/from-notion-to-do-block.ts:17-25 | Prefixing each child's lines and joining with `"\n"` equals joining first and then prefixing every line. |
| Strings.LinesAppend | lib/from-notion-block/from-notion-callout-block.ts:29 | The lines of `a + "\n" + b` are the lines of `a` followed by those of `b`. |
| Strings.NonEmpty | lib/from-notion-block/from-notion-quote-block.ts:18 | The filter keeps only non-empty strings, and is empty just when every input is empty. |
| Strings.NonEmptyAppend | lib/from-notion-block/from-notion-column-list-block.ts:10 | Filtering distributes over concatenation, so order is kept. |
| Strings.NonEmptyNoEmpty | lib/from-notion-block/from-notion-column-list-block.ts:10 | A list without empty strings passes the filter unchanged. |
| Strings.NonEmptySkipsEmpty | lib/from-notion-block/from-notion-toggle-block.ts:17 | An empty string anywhere in the list is dropped by the filter. |
| Strings.JoinNonEmptyParts | lib/from-notion-block/from-notion-column-list-block.ts:8-11 | A join of non-empty parts is empty exactly when there are no parts. |
| Strings.RemoveDashes | lib/from-notion-block/from-notion-child-page-block.ts:9 | `replace(/-/g, "")` leaves no dash, and shortens the string by exactly its number of dashes. |
| Strings.RemoveDashesAppend | lib/from-notion-block/from-notion-child-page-block.ts:9 | Removing dashes distributes over concatenation, so the other characters keep their order. |
| Strings.RemoveDashesNoDash | lib/from-notion-block/from-notion-link-to-page-block.ts:12 | A string without dashes is unchanged. |
| Strings.RemoveDashesIdempotent | lib/from-notion-block/from-notion-link-to-page-block.ts:17 | Removing dashes twice is removing them once. |
| Strings.TrimStart | lib/from-notion-block/from-notion-to-do-block.ts:27 | Only leading whitespace is removed, all of it. |
| Strings.TrimEnd | lib/from-notion-block/from-notion-to-do-block.ts:27 | Only trailing whitespace is removed, all of it. |
| Strings.Trim | lib/from-notion-block/from-notion-bulleted-list-item-block.ts:24 | The result neither starts nor ends with whitespace and is no longer than the input. |
| Strings.TrimIdempotent | lib/from-notion-block/from-notion-bulleted-list-item-block.ts:24 | Trimming twice is trimming once. |
| Strings.TrimUnchanged | lib/from-notion-block/from-notion-to-do-block.ts:27 | A string that starts and ends with non-whitespace is its own trim. |
| Blocks.TagSelectsParagraphKind | lib/from-notion-block/from-notion-block.ts:34-48 | Each of the tags `paragraph` and `heading_1..3` belongs to exactly its kind, in both directions. |
| Blocks.TagSelectsListKind | lib/from-notion-block/from-notion-block.ts:50-64 | The tags of list items, code and quote each belong to exactly their kind. |
| Blocks.TagSelectsBoxKind | lib/from-notion-block/from-notion-block.ts:66-80 | The tags of callout, divider, to-do and toggle each belong to exactly their kind. |
| Blocks.TagSelectsImageKind | lib/from-notion-block/from-notion-block.ts:82-96 | The tags of image, video, file and PDF each belong to exactly their kind. |
| Blocks.TagSelectsLinkKind | lib/from-notion-block/from-notion-block.ts:98-112 | The tags of audio, embed, bookmark and link preview each belong to exactly their kind. |
| Blocks.TagSelectsTableKind | lib/from-notion-block/from-notion-block.ts:114-128 | The tags of table, equation, column list and column each belong to exactly their kind. |
| Blocks.TagSelectsPageKind | lib/from-notion-block/from-notion-block.ts:130-140 | The tags of child page, child database, link to page and table row each belong to exactly their kind. |
| Blocks.TagKnownIffSupported | lib/from-notion-block/from-notion-block.ts:33-142 | The known tags are exactly the tags of the kinds other than an unknown one. A `table_row` tag is known, although the dispatch sends a stray row to the placeholder too. |
| LeafBlocks.NotionUrl | lib/from-notion-block/from-notion-link-to-page-block.ts:12-13 | The link is the origin `https://www.notion.so/` followed by the id without any dash. |
| LeafBlocks.FromNotionParagraphBlock | lib/from-notion-block/from-notion-block.ts:34-36 | No contract: an assumed form, the rich text's Markdown. `Examples.OneParagraph` and the column and container examples use it. |
| LeafBlocks.FromNotionHeadingBlock | lib/from-notion-block/from-notion-block.ts:38-48 | No contract: an assumed form, the `#` markers, a space and the text. |
| LeafBlocks.FromNotionCodeBlock | lib/from-notion-block/from-notion-block.ts:58-60 | No contract: an assumed form, a fenced block with the language after the opening fence. |
| LeafBlocks.RemoveDashesOfGroups | lib/from-notion-block/from-notion-child-page-block.ts:9 | An id in the dashed UUID layout loses its dashes and keeps its five groups in order. |
| LeafBlocks.NotionUrlOfGroups | lib/from-notion-block/from-notion-link-to-page-block.ts:11-19 | The link of an id in the dashed UUID layout is the origin followed by its five groups run together. |
| LeafBlocks.RemoveDashesThenGroup | lib/from-notion-block/from-notion-child-database-block.ts:9 | Extending an id by a dash and a dash-free group extends the dash-free id by that group. |
| LeafBlocks.ImageAlt | lib/from-notion-block/from-notion-image-block.ts:8-9 | The alt text is never empty. It is the rendered caption when that is non-empty, and exactly `image` when the caption renders empty. |
| LeafBlocks.FromNotionImageBlock | lib/from-notion-block/from-notion-image-block.ts:7-17 | The output is empty exactly when the file URL is empty; otherwise it is `![alt](url)`. |
| LeafBlocks.FromNotionVideoBlock | lib/from-notion-block/from-notion-video-block.ts:7-9 | A video renders as the bare URL of its file. |
| LeafBlocks.LabelledLink | lib/from-notion-block/from-notion-audio-block.ts:10-14 | A labelled link is empty exactly when its URL is empty. |
| LeafBlocks.FromNotionAudioBlock | lib/from-notion-block/from-notion-audio-block.ts:7-15 | The output is empty exactly when the URL is empty; otherwise it is `[音声](url)`. |
| LeafBlocks.FromNotionFileBlock | lib/from-notion-block/from-notion-file-block.ts:7-15 | The output is empty exactly when the URL is empty; otherwise it is `[ファイル](url)`. |
| LeafBlocks.FromNotionPdfBlock | lib/from-notion-block/from-notion-pdf-block.ts:7-15 | The output is empty exactly when the URL is empty; otherwise it is `[PDF](url)`. |
| LeafBlocks.FromNotionEquationBlock | lib/from-notion-block/from-notion-equation-block.ts:6-10 | The output is the expression, unaltered, between a leading and a trailing `$`. |
| LeafBlocks.FromNotionDividerBlock | lib/from-notion-block/from-notion-divider-block.ts:6-10 | A divider is `---`, whatever the block holds. |
| LeafBlocks.TitledNotionLink | lib/from-notion-block/from-notion-child-page-block.ts:9-10 | The link starts with `[`, the title verbatim, `](` and the origin, ends with `)`, and between them holds the id without its dashes. |
| LeafBlocks.FromNotionChildPageBlock | lib/from-notion-block/from-notion-child-page-block.ts:6-11 | The page title linked to the block's own id, in the shape `TitledNotionLink` states. |
| LeafBlocks.FromNotionChildDatabaseBlock | lib/from-notion-block/from-notion-child-database-block.ts:6-11 | The database title linked to the block's own id, in the shape `TitledNotionLink` states. |
| LeafBlocks.FromNotionLinkToPageBlock | lib/from-notion-block/from-notion-link-to-page-block.ts:6-22 | A page target gives the page's URL and a database target the database's; the output is empty exactly for any other target. |
| TableBlock.TableRows | lib/from-notion-block/from-notion-table-block.ts:14-22 | Specification function of the row loop, with no contract of its own. `TableRowsAppend`, `TableRowsAppendRow` and `TableSkipsNonRows` state its properties. |
| TableBlock.RowLine | lib/from-notion-block/from-notion-table-block.ts:42 | Specification function of one table line, with no contract of its own. `RowLineAvoids` and `Examples.RowLineOfThree` state its properties. |
| TableBlock.TableMarkdown | lib/from-notion-block/from-notion-table-block.ts:7-46 | Specification function of the table serializer, with no contract of its own. `FromNotionTableBlock` is proved equal to it, and `TableWithoutRows`, `TableSkipsNonRows` and `TableLinesShape` state its properties. |
| TableBlock.RowCells | lib/from-notion-block/from-notion-table-block.ts:18-20 | One rendered cell per cell, each the cell's rich-text Markdown. |
| TableBlock.Dashes | lib/from-notion-block/from-notion-table-block.ts:35 | The delimiter row has one `---` per header cell. |
| TableBlock.TableLines | lib/from-notion-block/from-notion-table-block.ts:33-43 | A table has one line per row plus the delimiter row. |
| TableBlock.FromNotionTableBlock | lib/from-notion-block/from-notion-table-block.ts:7-46 | The loops' output is `TableMarkdown`: empty for no children or no `table_row` child, otherwise the joined header, delimiter and body lines. |
| TableBlock.TableRowsAppend | lib/from-notion-block/from-notion-table-block.ts:14-22 | Collecting rows distributes over concatenation of the children. |
| TableBlock.TableWithoutRows | lib/from-notion-block/from-notion-table-block.ts:24-26 | A table with no `table_row` child has no rows and renders as `""`. |
| TableBlock.TableSkipsNonRows | lib/from-notion-block/from-notion-table-block.ts:15-17 | Inserting a non-row child anywhere changes neither the rows nor the output. |
| TableBlock.TableRowsAppendRow | lib/from-notion-block/from-notion-table-block.ts:18-21 | Appending a row child appends its rendered cells, so rows keep the children's order. |
| TableBlock.RowLineAvoids | lib/from-notion-block/from-notion-table-block.ts:42 | A table line holds no newline when its cells hold none. |
| TableBlock.TableLinesAt | lib/from-notion-block/from-notion-table-block.ts:33-43 | Line 0 is the header, line 1 is the delimiter sized by the header, and line k+1 is row k. |
| TableBlock.TableLinesAvoid | lib/from-notion-block/from-notion-table-block.ts:33-43 | No table line holds a newline when no cell does. |
| TableBlock.TableLinesShape | lib/from-notion-block/from-notion-table-block.ts:28-45 | When no cell holds a newline, the output's lines are exactly the table lines: the header, then `---` per header cell whatever the other rows' widths, then the body rows in order. |
| TableBlock.ThreeColumnDelimiter | lib/from-notion-block/from-notion-table-block.ts:35 | The delimiter row of a three-column header is `\| --- \| --- \| --- \|`. |
| Containers.FromNotionQuoteBlock | lib/from-notion-block/from-notion-quote-block.ts:8-27 | No contract of its own. `QuoteWithChildren`, `QuoteWithoutChildren`, `QuoteEmptyChildren`, `QuoteLinesQuoted` and `QuoteSkipsEmptyChild` state its properties. |
| Containers.FromNotionCalloutBlock | lib/from-notion-block/from-notion-callout-block.ts:8-30 | No contract of its own. `CalloutWithoutEmojiIsQuote` and `CalloutStartsWithEmoji` state its properties, with `CalloutContent` for the first line. |
| Containers.FromNotionToDoBlock | lib/from-notion-block/from-notion-to-do-block.ts:8-28 | No contract of its own. `ToDoShape` and `TrimKeepsMarker` state its properties. |
| Containers.FromNotionBulletedListItemBlock | lib/from-notion-block/from-notion-bulleted-list-item-block.ts:5-25 | No contract of its own. `BulletedShape` and `BulletedIsTrimmedNumbered` state its properties. |
| Containers.FromNotionNumberedListItemBlock | lib/from-notion-block/from-notion-numbered-list-item-block.ts:5-25 | No contract of its own. `NumberedShape` and `IndentedLayoutLines` state its properties. |
| Containers.FromNotionToggleBlock | lib/from-notion-block/from-notion-toggle-block.ts:8-21 | No contract of its own. `ToggleShape` and `ToggleSkipsEmptyChild` state its properties. |
| Containers.FromNotionColumnListBlock | lib/from-notion-block/from-notion-column-list-block.ts:7-12 | No contract of its own. `ColumnsEmpty`, `ColumnsSkipEmptyChild` and `ColumnsKeepOrder` state its properties. |
| Containers.CalloutContent | lib/from-notion-block/from-notion-callout-block.ts:10-12 | The emoji and one space precede the text when the icon has text; otherwise the text is unchanged. |
| Containers.QuoteWithChildren | lib/from-notion-block/from-notion-quote-block.ts:8-27 | With a non-empty child, the output is the content and the non-empty children with every line behind `> `. |
| Containers.QuoteOneLineChild | lib/from-notion-block/from-notion-quote-block.ts:16-26 | A one-line content with one non-empty one-line child gives `> content` and `> child` on two lines. |
| Containers.QuoteWithoutChildren | lib/from-notion-block/from-notion-quote-block.ts:10-14 | Without children, every line of the text is behind `> `. |
| Containers.QuoteEmptyChildren | lib/from-notion-block/from-notion-quote-block.ts:16-26 | Children that all render empty leave the quoted text followed by a dangling newline. |
| Containers.QuoteLinesQuoted | lib/from-notion-block/from-notion-quote-block.ts:8-27 | Unless every child renders empty, every output line starts with `> `. |
| Containers.QuoteSkipsEmptyChild | lib/from-notion-block/from-notion-quote-block.ts:18 | A child that renders empty is skipped, as long as the block still has children. |
| Containers.NestedQuote | lib/from-notion-block/from-notion-quote-block.ts:16-26 | A quote inside a quote has its lines behind `> > `. |
| Containers.CalloutWithoutEmojiIsQuote | lib/from-notion-block/from-notion-callout-block.ts:8-30 | A callout whose icon has no text lays out exactly as a quote. |
| Containers.CalloutStartsWithEmoji | lib/from-notion-block/from-notion-callout-block.ts:10-13 | A callout with an emoji starts with `> `, the emoji and a space. |
| Containers.SplitFirstPiece | lib/from-notion-block/from-notion-callout-block.ts:13 | The first piece of a split keeps a prefix that does not hold the separator. |
| Containers.IndentedLayoutLines | lib/from-notion-block/from-notion-numbered-list-item-block.ts:14-24 | Indenting each child and joining equals indenting every line of the joined children: each child line gains the indent once. |
| Containers.IndentedOneLineChild | lib/from-notion-block/from-notion-to-do-block.ts:17-27 | An item with one one-line child is the item, a newline, the indent and the child. |
| Containers.TrimKeepsMarker | lib/from-notion-block/from-notion-to-do-block.ts:27 | Trimming an item that begins with its marker only drops trailing whitespace and keeps the marker. |
| Containers.ToDoShape | lib/from-notion-block/from-notion-to-do-block.ts:8-28 | The output starts with `- [x]` exactly when checked; without children it is `- [x] ` or `- [ ] ` and the text, untrimmed; with children it is the item and the children's lines indented by two spaces, trailing whitespace removed. |
| Containers.BulletedShape | lib/from-notion-block/from-notion-bulleted-list-item-block.ts:5-25 | The output starts with `-`; without children it is `- ` and the text, untrimmed; with children it is the item and the children's lines indented by four spaces, trailing whitespace removed. |
| Containers.NumberedShape | lib/from-notion-block/from-notion-numbered-list-item-block.ts:5-25 | The output always starts with `1. `; without children it is `1. ` and the text; with children its lines are the item's and then every child line indented by four spaces, nothing trimmed. |
| Containers.BulletedIsTrimmedNumbered | lib/from-notion-block/from-notion-bulleted-list-item-block.ts:8-24 | With children, a bulleted item is the trimmed numbered item with `-` in place of `1.`. |
| Containers.ToggleShape | lib/from-notion-block/from-notion-toggle-block.ts:8-21 | The output starts with the bold title and is exactly `**title**` without children; with children it is the title, a blank line and the column layout; children that all render empty leave `**title**` and a blank line. |
| Containers.ToggleSkipsEmptyChild | lib/from-notion-block/from-notion-toggle-block.ts:17 | A toggle skips a child that renders empty while another remains. |
| Containers.ColumnsEmpty | lib/from-notion-block/from-notion-column-list-block.ts:7-12 | Columns render as nothing exactly when every child renders as nothing. |
| Containers.ColumnsSkipEmptyChild | lib/from-notion-block/from-notion-column-list-block.ts:10 | Columns ignore a child that renders empty, wherever it is. |
| Containers.ColumnsKeepOrder | lib/from-notion-block/from-notion-column-list-block.ts:8-11 | Children that all render non-empty are kept in order, separated by blank lines. |
| Serializer.FromNotionBlock | lib/from-notion-block/from-notion-block.ts:33-143 | The dispatch, with no contract of its own. `UnsupportedTypes`, `LeafIgnoresChildren`, `IdOnlyForChildLinks`, `ColumnIsColumnList`, `UrlBlocks`, `MediaReadsOnlyUrl`, `NotionLinksHaveNoDash` and the `*Dispatch` lemmas state its properties. The dispatch lemmas cover quote, callout, toggle, numbered list item, column list and column in general, and a to-do with a paragraph child; the bulleted arm is not stated separately. |
| Serializer.Placeholder | lib/from-notion-block/from-notion-block.ts:142 | The comment holds the type tag verbatim, between the fixed opening and ` -->`. |
| Serializer.FromNotionBlocks | lib/from-notion-block/from-notion-quote-block.ts:17 | One rendered string per child. |
| Serializer.FromNotionBlocksAt | lib/from-notion-block/from-notion-toggle-block.ts:16 | Child i's Markdown is `fromNotionBlock` of child i alone. |
| Serializer.FromNotionBlocksCons | lib/from-notion-block/from-notion-column-list-block.ts:9 | A non-empty list renders as its first block and then the others. |
| Serializer.FromNotionBlocksAppend | lib/from-notion-block/from-notion-column-list-block.ts:9 | Rendering a list of blocks distributes over concatenation. |
| Serializer.UnsupportedTypes | lib/from-notion-block/from-notion-block.ts:142 | Unknown types and a stray `table_row` become the placeholder naming their tag, and an unknown tag is none of the dispatched ones. |
| Serializer.LeafIgnoresChildren | lib/from-notion-block/from-notion-block.ts:33-143 | The output of a non-container block does not depend on its children. |
| Serializer.IdOnlyForChildLinks | lib/from-notion-block/from-notion-block.ts:130-136 | Only child pages and child databases read the block's id. |
| Serializer.ColumnIsColumnList | lib/from-notion-block/from-notion-block.ts:122-128 | A column renders as a column list with the same children. |
| Serializer.UrlBlocks | lib/from-notion-block/from-notion-embed-block.ts:6-8 | Embeds, bookmarks and link previews render as the bare URL, with the caption unread. |
| Serializer.MediaReadsOnlyUrl | lib/from-notion-block/from-notion-block.ts:86-100 | Video, audio, file and PDF blocks read only the URL of their file: not whether it is hosted or external, and not the caption. |
| Serializer.NotionLinksHaveNoDash | lib/from-notion-block/from-notion-link-to-page-block.test.ts:54-65 | A link to page, and a child page or database whose title has no dash, renders with no dash at all (also the child page and child database tests at lines 38-42). |
| Serializer.QuoteDispatch | lib/from-notion-block/from-notion-block.ts:62-64 | A quote block reaches the quote serializer with its children's Markdown. |
| Serializer.CalloutDispatch | lib/from-notion-block/from-notion-block.ts:66-68 | A callout block reaches the callout serializer with its icon and its children's Markdown. |
| Serializer.ToggleDispatch | lib/from-notion-block/from-notion-block.ts:78-80 | A toggle block reaches the toggle serializer with its children's Markdown. |
| Serializer.ColumnListDispatch | lib/from-notion-block/from-notion-block.ts:122-124 | A column list reaches the column-list serializer with its children's Markdown. |
| Serializer.NumberedDispatch | lib/from-notion-block/from-notion-block.ts:54-56 | A numbered list item reaches the numbered serializer with its children's Markdown. |
| Serializer.ColumnDispatch | lib/from-notion-block/from-notion-block.ts:126-128 | A column reaches the column-list layout with its children's Markdown. |
| Serializer.QuoteBlockLines | lib/from-notion-block/from-notion-quote-block.ts:16-26 | Through the recursion, a quote whose children all render non-empty has every line, its own and its children's, behind `> `. |
| Serializer.QuoteInQuote | lib/from-notion-block/from-notion-quote-block.ts:16-26 | A quote block whose only child is a quote block has the inner text's lines behind `> > `. |
| Examples.CalloutWithParagraph | lib/from-notion-block/from-notion-callout-block.ts:8-30 | A callout with an emoji and one paragraph child, all one-line, gives `> emoji text` and then `> child`. |
| Examples.CalloutOneLineChild | lib/from-notion-block/from-notion-callout-block.ts:9-29 | The same layout, from the child's rendered Markdown. |
| Examples.CalloutWithoutChildren | lib/from-notion-block/from-notion-callout-block.ts:9-14 | A childless callout of one newline-free plain span is `> ` and the callout content. |
| Examples.CalloutWithEmojiExample | lib/from-notion-block/from-notion-callout-block.test.ts:61 | The test's callout renders as `> 💡 これは重要な情報です`. |
| Examples.CalloutWithoutIconExample | lib/from-notion-block/from-notion-callout-block.test.ts:94 | The test's callout without an icon renders as `> アイコンなしの情報`. |
| Examples.CalloutWithChildExample | lib/from-notion-block/from-notion-callout-block.test.ts:177 | The test's callout renders as `> 📝 親コールアウト\n> 子要素のテキスト`. |
| Examples.QuoteOfThreeLines | lib/from-notion-block/from-notion-quote-block.ts:9-14 | A quote of three text lines puts `> ` before each. |
| Examples.ThreeLinesQuoted | lib/from-notion-block/from-notion-quote-block.ts:10 | Three newline-free lines each gain `> `. |
| Examples.LinesOfThree | lib/from-notion-block/from-notion-quote-block.ts:10 | Three newline-free strings joined by newlines split into those three lines. |
| Examples.MultilineQuoteExample | lib/from-notion-block/from-notion-quote-block.test.ts:89 | The test's quote renders as `> 1行目\n> 2行目\n> 3行目`. |
| Examples.QuoteOfOneLine | lib/from-notion-block/from-notion-quote-block.ts:9-14 | A childless quote of one newline-free plain span is `> ` and the text. |
| Examples.QuoteWithParagraph | lib/from-notion-block/from-notion-quote-block.ts:16-26 | A one-line quote with one non-empty one-line paragraph child gives `> text` and `> child` on two lines. |
| Examples.QuoteExample | lib/from-notion-block/from-notion-quote-block.test.ts:57 | The test's quote renders as `> これは引用文です`. |
| Examples.QuoteWithChildExample | lib/from-notion-block/from-notion-quote-block.test.ts:168 | The test's quote with a child renders as `> 親引用\n> 子要素のテキスト`. |
| Examples.ToDoWithParagraph | lib/from-notion-block/from-notion-to-do-block.ts:8-28 | An unchecked to-do with one paragraph child not ending in whitespace gives `- [ ] text`, a newline, two spaces and the child. |
| Examples.ToDoOneLineChild | lib/from-notion-block/from-notion-to-do-block.ts:9-27 | The same layout, from the child's rendered Markdown, with nothing trimmed. |
| Examples.ToDoDispatch | lib/from-notion-block/from-notion-block.ts:74-76 | A to-do block with a paragraph child reaches the to-do serializer with its checked flag and its child's Markdown. |
| Examples.ToDoWithChildExample | lib/from-notion-block/from-notion-to-do-block.test.ts:171 | The test's to-do renders as `- [ ] 親タスク\n  サブタスクの説明`. |
| Examples.ToDoWithoutChildren | lib/from-notion-block/from-notion-to-do-block.ts:9-14 | A childless to-do is `- [x] ` when checked, else `- [ ] `, followed by the text. |
| Examples.ToDoUncheckedExample | lib/from-notion-block/from-notion-to-do-block.test.ts:58 | The test's unchecked to-do renders as `- [ ] タスク1`. |
| Examples.ToDoCheckedExample | lib/from-notion-block/from-notion-to-do-block.test.ts:91 | The test's checked to-do renders as `- [x] 完了したタスク`. |
| Examples.ToggleWithParagraph | lib/from-notion-block/from-notion-toggle-block.ts:8-21 | A toggle with one non-empty paragraph child gives the bold title, a blank line and the child. |
| Examples.ToggleOneChild | lib/from-notion-block/from-notion-toggle-block.ts:15-20 | The same layout, from the child's rendered Markdown. |
| Examples.ToggleWithChildExample | lib/from-notion-block/from-notion-toggle-block.test.ts:136 | The test's toggle renders as `**詳細を表示**\n\nトグル内のコンテンツ`. |
| Examples.ToggleWithoutChildren | lib/from-notion-block/from-notion-toggle-block.ts:9-14 | A childless toggle is its title in bold. |
| Examples.ToggleExample | lib/from-notion-block/from-notion-toggle-block.test.ts:57 | The test's toggle renders as `**トグルのタイトル**`. |
| Examples.TwoColumnsParts | lib/from-notion-block/from-notion-column-list-block.ts:8-11 | Two non-empty children are separated by a blank line. |
| Examples.ColumnOfTwoParagraphs | lib/from-notion-block/from-notion-block.ts:126-128 | A column of two non-empty paragraphs gives the two separated by a blank line. |
| Examples.ColumnExample | lib/from-notion-block/from-notion-column-block.test.ts:121 | The test's column renders as `カラム内のテキスト1\n\nカラム内のテキスト2`. |
| Examples.ColumnOfOneParagraph | lib/from-notion-block/from-notion-block.ts:126-128 | A column of one non-empty paragraph renders as the paragraph. |
| Examples.ColumnListOfTwoColumns | lib/from-notion-block/from-notion-column-list-block.ts:7-12 | A column list of two one-paragraph columns gives the paragraphs separated by a blank line. |
| Examples.ColumnListExample | lib/from-notion-block/from-notion-column-list-block.test.ts:171 | The test's column list renders as `左カラム\n\n右カラム`. |
| Examples.ColumnsWithoutChildren | lib/from-notion-block/from-notion-column-list-block.test.ts:182 | A column list and a column without children both render as `""` (also lib/from-notion-block/from-notion-column-block.test.ts:132). |
| Examples.PlainRowCells | lib/from-notion-block/from-notion-table-block.ts:18-20 | The cells of a row of plain spans render as their texts. |
| Examples.RowLineOfThree | lib/from-notion-block/from-notion-table-block.ts:42 | A table line of three cells is `\| x \| y \| z \|`. |
| Examples.TwoPlainRows | lib/from-notion-block/from-notion-table-block.ts:14-22 | Two row children give their two rows, in order. |
| Examples.TableOfTwoRows | lib/from-notion-block/from-notion-table-block.ts:28-45 | A header and one body row of three cells give the header, the delimiter and the body line. |
| Examples.TableExample | lib/from-notion-block/from-notion-table-block.test.ts:191-193 | The test's table renders as its three expected lines. |
| Examples.EmptyTableExample | lib/from-notion-block/from-notion-table-block.test.ts:209 | A table with no children renders as `""`. |
| Examples.ChildLinkOfGroups | lib/from-notion-block/from-notion-child-page-block.ts:9-10 | A child page or child database with a dashed UUID id links its title to the origin and the id's groups run together. |
| Examples.ChildPageExample | lib/from-notion-block/from-notion-child-page-block.test.ts:34-35 | The test's child page renders as `[子ページのタイトル](https://www.notion.so/1d8842f9618180d8af1cdece63b450b0)`. |
| Examples.ChildDatabaseExample | lib/from-notion-block/from-notion-child-database-block.test.ts:33-35 | The test's child database renders as `[子データベースのタイトル](https://www.notion.so/1d8842f9618180d8af1cdece63b450b0)`. |
| Examples.LinkToPageOfGroups | lib/from-notion-block/from-notion-link-to-page-block.ts:11-19 | A link to a page or database with a dashed UUID id is the origin and the id's groups run together. |
| Examples.LinkToPageExample | lib/from-notion-block/from-notion-link-to-page-block.test.ts:38 | The test's page link renders as `https://www.notion.so/abcd1234567890abcdef1234567890ab`. |
| Examples.LinkToDatabaseExample | lib/from-notion-block/from-notion-link-to-page-block.test.ts:51 | The test's database link renders as `https://www.notion.so/dbcd1234567890abcdef1234567890ab`. |
| Examples.ImageWithoutCaption | lib/from-notion-block/from-notion-image-block.ts:8-16 | An image with a URL and no caption, external or hosted, renders as `![image](url)`. |
| Examples.ImageWithCaption | lib/from-notion-block/from-notion-image-block.ts:8-16 | An image with a URL and a one-span non-empty caption renders as `![caption](url)`. |
| Examples.ImageExternalExample | lib/from-notion-block/from-notion-image-block.test.ts:41 | The test's external image renders as `![image](https://example.com/image.png)`. |
| Examples.ImageHostedExample | lib/from-notion-block/from-notion-image-block.test.ts:58 | The test's hosted image renders as `![image](https://s3.amazonaws.com/notion/image.png)`. |
| Examples.ImageCaptionExample | lib/from-notion-block/from-notion-image-block.test.ts:92 | The test's captioned image renders as `![サンプル画像](https://example.com/image.png)`. |
| Examples.MediaLinks | lib/from-notion-block/from-notion-audio-block.ts:7-15 | Audio, file and PDF blocks with a URL render as `[音声](url)`, `[ファイル](url)` and `[PDF](url)` (also from-notion-file-block.ts and from-notion-pdf-block.ts, lines 7-15). |
| Examples.AudioExamples | lib/from-notion-block/from-notion-audio-block.test.ts:41-58 | The tests' external and hosted audio (lines 41 and 58) render as their `[音声](url)` links. |
| Examples.FileExamples | lib/from-notion-block/from-notion-file-block.test.ts:42-62 | The tests' external and hosted files (lines 42 and 60-62) render as their `[ファイル](url)` links. |
| Examples.PdfExamples | lib/from-notion-block/from-notion-pdf-block.test.ts:41-58 | The tests' external and hosted PDFs (lines 41 and 58) render as their `[PDF](url)` links. |
| Examples.LinkPreviewExample | lib/from-notion-block/from-notion-link-preview-block.test.ts:33 | The test's link preview renders as `https://example.com/preview`. |
| Examples.EquationExample | lib/from-notion-block/from-notion-equation-block.test.ts:33 | The test's equation renders as `$E = mc^2$`. |
| Examples.ComplexEquationExample | lib/from-notion-block/from-notion-equation-block.test.ts:45-47 | The test's complex equation renders with its backslashes and braces unaltered between `$` signs. |

## Left out

- Inputs that are `undefined`, such as an absent span list or an absent `children` array, cannot be represented. The `!richTexts` guard at lib/utils.ts:17 and the `!block.children` guards are covered by their empty-list branches.
- Missing `annotations` on a span (lib/utils.ts:24) is modelled as every annotation being false, which renders the same.
- Colour annotations, `has_children`, timestamps, the parent and the other API metadata of a block are not modelled, because no serializer reads them.
- Table width and header flags are carried but unread, as in the source: the first row is always the header.
- `from-notion-paragraph-block.ts`, `from-notion-heading-*-block.ts`, `from-notion-code-block.ts` and `from-notion-column-block.ts` are not part of this model. Their forms are assumptions:
  - a paragraph renders as its rich text, as the column tests show;
  - a column renders as a column list, as the column test shows;
  - a heading is `#` markers, a space and the text;
  - code is a fenced block.
- FromNotionParagraphBlock, FromNotionHeadingBlock and FromNotionCodeBlock carry no contract. Two properties rely on their assumed forms reading only their rich text, heading level and language: `Serializer.LeafIgnoresChildren` and `Serializer.IdOnlyForChildLinks`. The examples with paragraph children rely on the paragraph form.
- The third `LinkTarget` variant, `OtherTarget`, stands for every `link_to_page.type` other than a page or a database (lib/from-notion-block/from-notion-link-to-page-block.ts:21). It carries only that type, since the serializer reads nothing else of it.
- The `""` return of `extractFileUrl` at lib/utils.ts:80 cannot be reached with a well-typed file object. `ExtractFileUrl` has only the two cases.
- The `headerRow === undefined` and `row === undefined` guards (lib/from-notion-block/from-notion-table-block.ts:29-31, 39-41) cannot fire. The method drops them.
- Strings are sequences of Unicode characters. UTF-16 surrogate pairs are not distinguished.
  - `split`, `trim` and `replace` work on characters.
  - This agrees with the source for every character these functions look at.
- The table class `lib/table/notion-table.ts`, the page and database clients, and the fetching of children from the Notion API are outside this model. Children are given to the serializer already fetched.
- Serializer.ColumnDispatch: this lemma and the other `*Dispatch` lemmas are one-step unfoldings of the dispatch. They state which serializer is reached, not new behaviour.
- The to-do dispatch is stated only for a to-do with a paragraph child (`Examples.ToDoDispatch`), as its test uses, and the bulleted-list-item dispatch is not stated as a lemma: the trimmed layout makes a general one-step unfolding too costly for the solver. Both arms call their serializer directly, and the layouts themselves are stated in general, with and without children, by `Containers.ToDoShape` and `Containers.BulletedShape`.
