/** Rich text, asset references and icons, and their conversion to inline
    Markdown (lib/utils.ts). */
module RichText {
  import opened Strings

  datatype Option<T> = None | Some(value: T)

  /** One rich-text item: its plain text, its annotations and its link.
      Colour is not modelled: the serializer never reads it. */
  datatype Span = Span(
    plainText: string,
    bold: bool,
    italic: bool,
    strikethrough: bool,
    underline: bool,
    code: bool,
    href: Option<string>)

  /** A span with no annotation and no link. */
  function Plain(t: string): Span
  {
    Span(t, false, false, false, false, false, None)
  }

  /** JavaScript truthiness of `text.href`: `null` and `""` add no link. */
  predicate HasLink(s: Span)
  {
    s.href.Some? && s.href.value != ""
  }

  /** The Markdown of one span: bold innermost, then italic, then
      strikethrough, then code, and the link around all of them. */
  function SpanMarkdown(s: Span): string
  {
    var t0 := s.plainText;
    var t1 := if s.bold then "**" + t0 + "**" else t0;
    var t2 := if s.italic then "*" + t1 + "*" else t1;
    var t3 := if s.strikethrough then "~~" + t2 + "~~" else t2;
    var t4 := if s.code then "`" + t3 + "`" else t3;
    if HasLink(s) then "[" + t4 + "](" + s.href.value + ")" else t4
  }

  /** The Markdown of a span list: the spans' Markdown concatenated, with no
      separator. Defined on the last span, as the loop builds it. */
  function RichTextMarkdown(spans: seq<Span>): string
  {
    if spans == [] then ""
    else RichTextMarkdown(spans[..|spans| - 1]) + SpanMarkdown(spans[|spans| - 1])
  }

  /** `fromNotionRichTextItem`: the loop over the spans, reassigning the
      span's text once per annotation and appending it to the result. */
  method FromNotionRichTextItem(richTexts: seq<Span>) returns (result: string)
    ensures result == RichTextMarkdown(richTexts)
  {
    if |richTexts| == 0 {
      return "";
    }
    result := "";
    for i := 0 to |richTexts|
      invariant result == RichTextMarkdown(richTexts[..i])
    {
      assert richTexts[..i + 1][..i] == richTexts[..i];
      var text := richTexts[i];
      var textResult := text.plainText;
      if text.bold { textResult := "**" + textResult + "**"; }
      if text.italic { textResult := "*" + textResult + "*"; }
      if text.strikethrough { textResult := "~~" + textResult + "~~"; }
      if text.code { textResult := "`" + textResult + "`"; }
      if text.href.Some? && text.href.value != "" {
        textResult := "[" + textResult + "](" + text.href.value + ")";
      }
      result := result + textResult;
    }
    assert richTexts[..|richTexts|] == richTexts;
  }

  /** The markers written before a span's text, outermost first. */
  function OpeningMarkers(s: Span): string
  {
    (if HasLink(s) then "[" else "")
    + ((if s.code then "`" else "")
       + ((if s.strikethrough then "~~" else "")
          + ((if s.italic then "*" else "")
             + (if s.bold then "**" else ""))))
  }

  /** The markers written after a span's text, innermost first. */
  function ClosingMarkers(s: Span): string
  {
    (if s.bold then "**" else "")
    + (if s.italic then "*" else "")
    + (if s.strikethrough then "~~" else "")
    + (if s.code then "`" else "")
    + (if HasLink(s) then "](" + s.href.value + ")" else "")
  }

  // ---------------------------------------------------------------------
  // Properties of the rich-text rendering

  /** The text of a span appears verbatim, between the opening markers
      (link, code, strikethrough, italic, bold) and the closing ones in
      the reverse order. */
  lemma SpanLayout(s: Span)
    ensures SpanMarkdown(s) == OpeningMarkers(s) + s.plainText + ClosingMarkers(s)
  {
    var b := if s.bold then "**" else "";
    var i := if s.italic then "*" else "";
    var k := if s.strikethrough then "~~" else "";
    var d := if s.code then "`" else "";
    var lo := if HasLink(s) then "[" else "";
    var lc := if HasLink(s) then "](" + s.href.value + ")" else "";
    var t := s.plainText;
    var t1 := if s.bold then "**" + t + "**" else t;
    var t2 := if s.italic then "*" + t1 + "*" else t1;
    var t3 := if s.strikethrough then "~~" + t2 + "~~" else t2;
    var t4 := if s.code then "`" + t3 + "`" else t3;
    Layer(s.bold, "**", t);
    Layer(s.italic, "*", t1);
    Layer(s.strikethrough, "~~", t2);
    Layer(s.code, "`", t3);
    var h := if s.href.Some? then s.href.value else "";
    LinkLayer(HasLink(s), h, t4);
    var o1, c1 := i + b, b + i;
    var o2, c2 := k + o1, c1 + k;
    var o3, c3 := d + o2, c2 + d;
    Nest(i, b, t, b, i);
    Nest(k, o1, t, c1, k);
    Nest(d, o2, t, c2, d);
    Nest(lo, o3, t, c3, lc);
  }

  /** One annotation layer: the marker on both sides, or nothing. */
  lemma Layer(c: bool, m: string, x: string)
    ensures (if c then m + x + m else x) == (if c then m else "") + x + (if c then m else "")
  {
    if !c {
      assert "" + x + "" == x;
    }
  }

  /** The link layer: `[` before and `](href)` after, or nothing. */
  lemma LinkLayer(c: bool, h: string, x: string)
    ensures (if c then "[" + x + "](" + h + ")" else x)
      == (if c then "[" else "") + x + (if c then "](" + h + ")" else "")
  {
    if c {
      assert "[" + x + "](" + h + ")" == "[" + x + ("](" + h + ")");
    } else {
      assert "" + x + "" == x;
    }
  }

  /** Wrapping `o2 + t + c2` in `o1` and `c1` nests the markers. */
  lemma Nest(o1: string, o2: string, t: string, c2: string, c1: string)
    ensures o1 + (o2 + t + c2) + c1 == (o1 + o2) + t + (c2 + c1)
  {
  }

  /** The rendering of a list is the rendering of any split of it, joined. */
  lemma {:induction false} RichTextAppend(a: seq<Span>, b: seq<Span>)
    ensures RichTextMarkdown(a + b) == RichTextMarkdown(a) + RichTextMarkdown(b)
  {
    if b == [] {
      assert a + b == a;
    } else {
      var ab, init, last := a + b, b[..|b| - 1], b[|b| - 1];
      assert ab[..|ab| - 1] == a + init;
      assert ab[|ab| - 1] == last;
      RichTextLast(ab);
      RichTextLast(b);
      RichTextAppend(a, init);
      AppendAssoc(RichTextMarkdown(a), RichTextMarkdown(init), SpanMarkdown(last));
    }
  }

  /** A non-empty list renders as all but its last span, then the last. */
  lemma RichTextLast(spans: seq<Span>)
    requires spans != []
    ensures RichTextMarkdown(spans) == RichTextMarkdown(spans[..|spans| - 1]) + SpanMarkdown(spans[|spans| - 1])
  {
  }

  /** A list of one span renders as that span. */
  lemma RichTextSingle(s: Span)
    ensures RichTextMarkdown([s]) == SpanMarkdown(s)
  {
    assert [s][..0] == [];
  }

  /** A span with no annotation and no link renders as its plain text. */
  lemma PlainSpanIsText(s: Span)
    requires !s.bold && !s.italic && !s.strikethrough && !s.code && !HasLink(s)
    ensures SpanMarkdown(s) == s.plainText
  {
  }

  /** Underline changes nothing in the rendering. */
  lemma UnderlineIgnored(s: Span, u: bool)
    ensures SpanMarkdown(s.(underline := u)) == SpanMarkdown(s)
  {
  }

  /** An absent or empty link adds nothing; a non-empty one wraps the
      annotated text as `[..](href)`. */
  lemma LinkWrapsAnnotatedText(s: Span)
    ensures SpanMarkdown(s) ==
      if HasLink(s) then "[" + SpanMarkdown(s.(href := None)) + "](" + s.href.value + ")"
      else SpanMarkdown(s.(href := None))
  {
  }

  /** Bold together with code gives `` `**t**` ``: code is outside bold. */
  lemma BoldInsideCode(t: string)
    ensures SpanMarkdown(Span(t, true, false, false, false, true, None)) == "`**" + t + "**`"
  {
  }

  /** All four annotations and a link, nested in the fixed order. */
  lemma AllAnnotationsOrder(t: string, url: string)
    requires url != ""
    ensures SpanMarkdown(Span(t, true, true, true, true, true, Some(url)))
      == "[`~~***" + t + "***~~`](" + url + ")"
  {
    var s := Span(t, true, true, true, true, true, Some(url));
    SpanLayout(s);
    assert OpeningMarkers(s) == "[`~~***";
    assert ClosingMarkers(s) == "***~~`](" + url + ")";
    AppendAssoc("[`~~***" + t, "***~~`](" + url, ")");
    AppendAssoc("[`~~***" + t, "***~~`](", url);
  }

  // ---------------------------------------------------------------------
  // Asset references and icons

  /** A file object: external, or hosted by Notion with an expiry time. */
  datatype FileRef = External(url: string) | Hosted(url: string, expiryTime: string)

  /** `extractFileUrl`: the URL of either kind of reference. */
  function ExtractFileUrl(file: FileRef): (r: string)
    ensures r == file.url
  {
    match file
    case External(u) => u
    case Hosted(u, _) => u
  }

  /** A page or callout icon; `NoIcon` is `null`. */
  datatype Icon =
    | NoIcon
    | Emoji(emoji: string)
    | ExternalIcon(url: string)
    | FileIcon(fileUrl: string)
    | CustomEmoji(id: string)

  /** `extractIconText`: only an emoji icon has text. */
  function ExtractIconText(icon: Icon): (r: string)
    ensures icon.Emoji? ==> r == icon.emoji
    ensures !icon.Emoji? ==> r == ""
  {
    match icon
    case Emoji(e) => e
    case _ => ""
  }
}
