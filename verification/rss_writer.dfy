/** The RSS 2.0 writer crate (crates/rss/src/write.rs): a `Channel` built
    up field by field, `Item` values with an optional enclosure, and `Build`,
    which writes the document line by line with the markup characters of
    section 2.4 of XML 1.0 replaced by the predefined entities of section
    4.6. A `DateTime<Utc>` is an opaque value carried here as its two
    renderings: the RFC 2822 form and the `to_string` form. */
module RssWriter {
  import opened Wrappers
  import opened Text

  datatype DateTime = DateTime(rfc2822: string, display: string)

  newtype u64 = x: int | 0 <= x < 0x1_0000_0000_0000_0000

  datatype Image = Image(url: string, title: string, link: string)

  datatype Enclosure = Enclosure(url: string, length: u64, mimeType: string)

  datatype Item = Item(
    title: string,
    link: string,
    description: string,
    enclosure: Option<Enclosure>,
    guid: string,
    pubDate: DateTime)
  {
    /** `Item::new`: no enclosure, dated `now`. */
    static function New(title: string, link: string, description: string, guid: string, now: DateTime): (r: Item)
      ensures r.enclosure.None? && r.pubDate == now
      ensures r.title == title && r.link == link && r.description == description && r.guid == guid
    {
      Item(title, link, description, None, guid, now)
    }

    /** `Item::enclosure`: sets the enclosure; nothing else changes. */
    function WithEnclosure(url: string, length: u64, mimeType: string): (r: Item)
      ensures r.enclosure == Some(Enclosure(url, length, mimeType))
      ensures r.(enclosure := enclosure) == this
    {
      this.(enclosure := Some(Enclosure(url, length, mimeType)))
    }

    /** `Item::pub_date`: sets the date; nothing else changes. */
    function WithPubDate(date: DateTime): (r: Item)
      ensures r.pubDate == date && r.(pubDate := pubDate) == this
    {
      this.(pubDate := date)
    }
  }

  // ---------------------------------------------------------------- escaping

  predicate IsMarkup(c: char) { c == '&' || c == '<' || c == '>' || c == '"' || c == '\'' }

  predicate NoMarkup(s: string) { '&' !in s && '<' !in s && '>' !in s && '"' !in s && '\'' !in s }

  /** `escape_xml`: five `replace` calls, `&` first. */
  function EscapeXml(s: string): string {
    ReplaceWith(ReplaceWith(ReplaceWith(ReplaceWith(ReplaceWith(
      s, '&', "&amp;"), '<', "&lt;"), '>', "&gt;"), '"', "&quot;"), '\'', "&apos;")
  }

  /** The entity of one character, or the character itself. */
  function EscapeChar(c: char): string {
    match c
    case '&' => "&amp;"
    case '<' => "&lt;"
    case '>' => "&gt;"
    case '"' => "&quot;"
    case '\'' => "&apos;"
    case _ => [c]
  }

  /** Reference definition: every character replaced by its entity in one pass. */
  function EscapePerChar(s: string): string {
    if s == [] then [] else EscapeChar(s[0]) + EscapePerChar(s[1..])
  }

  lemma {:induction false} EscapeXmlConcat(a: string, b: string)
    ensures EscapeXml(a + b) == EscapeXml(a) + EscapeXml(b)
  {
    var s1a, s1b := ReplaceWith(a, '&', "&amp;"), ReplaceWith(b, '&', "&amp;");
    ReplaceWithConcat(a, b, '&', "&amp;");
    var s2a, s2b := ReplaceWith(s1a, '<', "&lt;"), ReplaceWith(s1b, '<', "&lt;");
    ReplaceWithConcat(s1a, s1b, '<', "&lt;");
    var s3a, s3b := ReplaceWith(s2a, '>', "&gt;"), ReplaceWith(s2b, '>', "&gt;");
    ReplaceWithConcat(s2a, s2b, '>', "&gt;");
    var s4a, s4b := ReplaceWith(s3a, '"', "&quot;"), ReplaceWith(s3b, '"', "&quot;");
    ReplaceWithConcat(s3a, s3b, '"', "&quot;");
    ReplaceWithConcat(s4a, s4b, '\'', "&apos;");
  }

  /** The steps after the first leave a string alone that holds none of
      the characters they replace. */
  lemma LaterStepsKeep(s: string)
    requires '<' !in s && '>' !in s && '"' !in s && '\'' !in s
    ensures ReplaceWith(ReplaceWith(ReplaceWith(ReplaceWith(
              s, '<', "&lt;"), '>', "&gt;"), '"', "&quot;"), '\'', "&apos;") == s
  {
    ReplaceWithAbsent(s, '<', "&lt;");
    ReplaceWithAbsent(s, '>', "&gt;");
    ReplaceWithAbsent(s, '"', "&quot;");
    ReplaceWithAbsent(s, '\'', "&apos;");
  }

  lemma EscapeAmpersand()
    ensures EscapeXml("&") == "&amp;"
  {
    ReplaceWithOne('&', '&', "&amp;");
    LaterStepsKeep("&amp;");
  }

  lemma EscapeLess()
    ensures EscapeXml("<") == "&lt;"
  {
    var s1 := ReplaceWith("<", '&', "&amp;");
    assert s1 == "<" by { ReplaceWithOne('<', '&', "&amp;"); }
    var s2 := ReplaceWith(s1, '<', "&lt;");
    assert s2 == "&lt;" by { ReplaceWithOne('<', '<', "&lt;"); }
    assert '>' !in s2 && '"' !in s2 && '\'' !in s2;
    ReplaceWithAbsent(s2, '>', "&gt;");
    ReplaceWithAbsent(s2, '"', "&quot;");
    ReplaceWithAbsent(s2, '\'', "&apos;");
  }

  lemma EscapeGreater()
    ensures EscapeXml(">") == "&gt;"
  {
    ReplaceWithOne('>', '&', "&amp;");
    ReplaceWithOne('>', '<', "&lt;");
    ReplaceWithOne('>', '>', "&gt;");
    ReplaceWithAbsent("&gt;", '"', "&quot;");
    ReplaceWithAbsent("&gt;", '\'', "&apos;");
  }

  lemma EscapeQuote()
    ensures EscapeXml("\"") == "&quot;"
  {
    ReplaceWithOne('"', '&', "&amp;");
    ReplaceWithOne('"', '<', "&lt;");
    ReplaceWithOne('"', '>', "&gt;");
    ReplaceWithOne('"', '"', "&quot;");
    ReplaceWithAbsent("&quot;", '\'', "&apos;");
  }

  lemma EscapeApostrophe()
    ensures EscapeXml("'") == "&apos;"
  {
    ReplaceWithOne('\'', '&', "&amp;");
    ReplaceWithOne('\'', '<', "&lt;");
    ReplaceWithOne('\'', '>', "&gt;");
    ReplaceWithOne('\'', '"', "&quot;");
    ReplaceWithOne('\'', '\'', "&apos;");
  }

  lemma EscapeXmlOne(c: char)
    ensures EscapeXml([c]) == EscapeChar(c)
  {
    match c
    case '&' => EscapeAmpersand();
    case '<' => EscapeLess();
    case '>' => EscapeGreater();
    case '"' => EscapeQuote();
    case '\'' => EscapeApostrophe();
    case _ =>
      ReplaceWithOne(c, '&', "&amp;");
      ReplaceWithOne(c, '<', "&lt;");
      ReplaceWithOne(c, '>', "&gt;");
      ReplaceWithOne(c, '"', "&quot;");
      ReplaceWithOne(c, '\'', "&apos;");
  }

  /** Because `&` is replaced first, the chain of replacements is the same
      as replacing each character by its entity in one pass: no entity
      introduced by a later step is escaped again. */
  lemma {:induction false} EscapeXmlIsPerChar(s: string)
    ensures EscapeXml(s) == EscapePerChar(s)
  {
    if s != [] {
      assert s == [s[0]] + s[1..];
      EscapeXmlConcat([s[0]], s[1..]);
      EscapeXmlOne(s[0]);
      EscapeXmlIsPerChar(s[1..]);
    }
  }

  lemma {:induction false} EscapePerCharConcat(a: string, b: string)
    ensures EscapePerChar(a + b) == EscapePerChar(a) + EscapePerChar(b)
  {
    if a == [] {
      assert a + b == b;
    } else {
      assert (a + b)[0] == a[0] && (a + b)[1..] == a[1..] + b;
      assert a + b != [];
      EscapePerCharConcat(a[1..], b);
      AppendAssoc(EscapeChar(a[0]), EscapePerChar(a[1..]), EscapePerChar(b));
    }
  }

  /** The escaped text contains none of `<`, `>`, `"`, `'`. */
  lemma {:induction false} EscapedHasNoMarkup(s: string)
    ensures forall i :: 0 <= i < |EscapeXml(s)| ==> EscapeXml(s)[i] !in "<>\"'"
  {
    EscapeXmlIsPerChar(s);
    PerCharHasNoMarkup(s);
  }

  lemma {:induction false} PerCharHasNoMarkup(s: string)
    ensures forall i :: 0 <= i < |EscapePerChar(s)| ==> EscapePerChar(s)[i] !in "<>\"'"
  {
    if s != [] {
      PerCharHasNoMarkup(s[1..]);
      var head := EscapeChar(s[0]);
      assert forall i :: 0 <= i < |head| ==> head[i] !in "<>\"'";
      assert EscapePerChar(s) == head + EscapePerChar(s[1..]);
    }
  }

  /** Text without markup characters is written unchanged. */
  lemma EscapeIdentity(s: string)
    requires NoMarkup(s)
    ensures EscapeXml(s) == s
  {
    ReplaceWithAbsent(s, '&', "&amp;");
    LaterStepsKeep(s);
  }

  lemma {:induction false} PerCharLength(s: string)
    ensures |EscapePerChar(s)| >= |s|
    ensures |EscapePerChar(s)| == |s| <==> NoMarkup(s)
    ensures !NoMarkup(s) ==> '&' in EscapePerChar(s)
  {
    if s != [] {
      PerCharLength(s[1..]);
      var head := EscapeChar(s[0]);
      assert EscapePerChar(s) == head + EscapePerChar(s[1..]);
      assert NoMarkup(s) <==> !IsMarkup(s[0]) && NoMarkup(s[1..]) by {
        if NoMarkup(s) {
          forall i | 0 <= i < |s[1..]| ensures !IsMarkup(s[1..][i]) { assert s[1..][i] == s[i + 1]; }
        }
        if !IsMarkup(s[0]) && NoMarkup(s[1..]) {
          forall i | 0 <= i < |s| ensures !IsMarkup(s[i]) { if i > 0 { assert s[i] == s[1..][i - 1]; } }
        }
      }
      if IsMarkup(s[0]) {
        assert head[0] == '&';
      }
    }
  }

  /** Escaping is idempotent exactly on text without markup characters: on
      any text holding one of `& < > " '`, escaping the result again
      escapes the `&` of the entities once more. */
  lemma EscapeIdempotentIff(s: string)
    ensures EscapeXml(EscapeXml(s)) == EscapeXml(s) <==> NoMarkup(s)
  {
    EscapeXmlIsPerChar(s);
    EscapeXmlIsPerChar(EscapeXml(s));
    PerCharLength(s);
    PerCharLength(EscapeXml(s));
    if NoMarkup(s) {
      EscapeIdentity(s);
    } else {
      var e := EscapeXml(s);
      assert !NoMarkup(e) by {
        var i :| 0 <= i < |e| && e[i] == '&';
        assert IsMarkup(e[i]);
      }
    }
  }

  /** The unit test's shape: `Test & <test> "quoted"` is written
      `Test &amp; &lt;test&gt; &quot;quoted&quot;`. Here `a`, `b`, `c`, `d`
      stand for `Test `, ` `, `test` and `quoted`, or any other text without
      markup characters. */
  lemma EscapeExample(a: string, b: string, c: string, d: string)
    requires NoMarkup(a) && NoMarkup(b) && NoMarkup(c) && NoMarkup(d)
    ensures EscapeXml(a + "&" + b + "<" + c + ">" + b + "\"" + d + "\"")
         == a + "&amp;" + b + "&lt;" + c + "&gt;" + b + "&quot;" + d + "&quot;"
  {
    EscapeIdentity(a);
    EscapeIdentity(b);
    EscapeIdentity(c);
    EscapeIdentity(d);
    EscapeAppendOne(a, '&');
    EscapeAppendText(a + "&", a + "&amp;", b);
    EscapeAppendOne(a + "&" + b, '<');
    EscapeAppendText(a + "&" + b + "<", a + "&amp;" + b + "&lt;", c);
    EscapeAppendOne(a + "&" + b + "<" + c, '>');
    EscapeAppendText(a + "&" + b + "<" + c + ">", a + "&amp;" + b + "&lt;" + c + "&gt;", b);
    EscapeAppendOne(a + "&" + b + "<" + c + ">" + b, '"');
    EscapeAppendText(a + "&" + b + "<" + c + ">" + b + "\"", a + "&amp;" + b + "&lt;" + c + "&gt;" + b + "&quot;", d);
    EscapeAppendOne(a + "&" + b + "<" + c + ">" + b + "\"" + d, '"');
  }

  lemma EscapeAppendOne(s: string, c: char)
    ensures EscapeXml(s + [c]) == EscapeXml(s) + EscapeChar(c)
  {
    EscapeXmlConcat(s, [c]);
    EscapeXmlOne(c);
  }

  lemma EscapeAppendText(s: string, escaped: string, t: string)
    requires EscapeXml(s) == escaped && EscapeXml(t) == t
    ensures EscapeXml(s + t) == escaped + t
  {
    EscapeXmlConcat(s, t);
  }

  /** An existing entity is escaped again: its `&` becomes `&amp;`, so
      `&lt;` is written `&amp;lt;`. */
  lemma EscapeEntityAgain(name: string)
    requires NoMarkup(name)
    ensures EscapeXml("&" + name + ";") == "&amp;" + name + ";"
  {
    EscapeIdentity(name);
    EscapeIdentity(";");
    EscapeXmlOne('&');
    EscapeXmlConcat("&" + name, ";");
    EscapeXmlConcat("&", name);
  }

  // ---------------------------------------------------------------- the document

  /** The document as the list of lines `build` writes, one `writeln!` each;
      no line holds the newline that `writeln!` adds after it. */

  const XmlDeclaration: string := "<?xml version=\"1.0\" encoding=\"UTF-8\"?>"
  const RssOpen: string := "<rss version=\"2.0\">"
  const ChannelOpen: string := "<channel>"
  const ImageOpen: string := "     <image>"
  const ImageClose: string := "     </image>"
  const ItemOpen: string := "     <item>"
  const ItemClose: string := "     </item>"
  const ChannelClose: string := "</channel>"
  const RssClose: string := "</rss>"

  function Element(indent: string, tag: string, text: string): string {
    indent + "<" + tag + ">" + text + "</" + tag + ">"
  }

  const Outer: string := "     "
  const Inner: string := "         "

  function HeadLines(title: string, link: string, description: string): (r: seq<string>)
    ensures |r| == 6
  {
    [XmlDeclaration, RssOpen, ChannelOpen,
     Element(Outer, "title", EscapeXml(title)),
     Element(Outer, "link", EscapeXml(link)),
     Element(Outer, "description", EscapeXml(description))]
  }

  /** The `<image>` block, present only when an image was set. */
  function ImageLines(image: Option<Image>): (r: seq<string>)
    ensures |r| == if image.Some? then 5 else 0
  {
    match image
    case None => []
    case Some(img) =>
      [ImageOpen,
       Element(Inner, "url", EscapeXml(img.url)),
       Element(Inner, "title", EscapeXml(img.title)),
       Element(Inner, "link", EscapeXml(img.link)),
       ImageClose]
  }

  /** The channel dates, in RFC 2822 form and not escaped. */
  function DateLines(pubDate: DateTime, lastBuildDate: DateTime): (r: seq<string>)
    ensures |r| == 2
  {
    [Element(Outer, "pubDate", pubDate.rfc2822),
     Element(Outer, "lastBuildDate", lastBuildDate.rfc2822)]
  }

  function EnclosureLine(e: Enclosure): string {
    Outer + "<enclosure url=\"" + EscapeXml(e.url) + "\" length=\"" + NatToString(e.length as nat)
      + "\" type=\"" + EscapeXml(e.mimeType) + "\"></enclosure>"
  }

  /** The date line of an item: the `to_string` form, escaped, and a closing
      tag without its final `>`, exactly as the writer emits it. */
  function ItemDateLine(date: DateTime): string {
    Outer + "<pubDate>" + EscapeXml(date.display) + "</pubDate"
  }

  /** The item's date line is the `<pubDate>` element with its last `>`
      missing: it ends in `e`, not `>`. */
  lemma ItemDateLineUnclosed(date: DateTime)
    ensures ItemDateLine(date) + ">" == Element(Outer, "pubDate", EscapeXml(date.display))
    ensures var line := ItemDateLine(date); line[|line| - 1] == 'e'
  {
  }

  /** One item block: the enclosure line sits between the description and
      the guid, and only when the item has an enclosure. */
  function ItemLines(item: Item): (r: seq<string>)
    ensures |r| == if item.enclosure.Some? then 8 else 7
  {
    [ItemOpen,
     Element(Inner, "title", EscapeXml(item.title)),
     Element(Inner, "link", EscapeXml(item.link)),
     Element(Inner, "description", EscapeXml(item.description))]
      + (match item.enclosure case None => [] case Some(e) => [EnclosureLine(e)])
      + [Element(Outer, "guid", EscapeXml(item.guid)), ItemDateLine(item.pubDate), ItemClose]
  }

  /** The item blocks, one per item, in item order. */
  function ItemsLines(items: seq<Item>): seq<string> {
    if items == [] then [] else ItemsLines(items[..|items| - 1]) + ItemLines(items[|items| - 1])
  }

  function ChannelLines(title: string, link: string, description: string, image: Option<Image>,
                        pubDate: DateTime, lastBuildDate: DateTime, items: seq<Item>): seq<string> {
    HeadLines(title, link, description) + ImageLines(image) + DateLines(pubDate, lastBuildDate)
      + ItemsLines(items) + [ChannelClose, RssClose]
  }

  /** The document `build` returns. */
  function ChannelXml(title: string, link: string, description: string, image: Option<Image>,
                      pubDate: DateTime, lastBuildDate: DateTime, items: seq<Item>): string {
    Render(ChannelLines(title, link, description, image, pubDate, lastBuildDate, items))
  }

  lemma {:induction false} ItemsLinesConcat(a: seq<Item>, b: seq<Item>)
    ensures ItemsLines(a + b) == ItemsLines(a) + ItemsLines(b)
  {
    if b == [] {
      assert a + b == a;
    } else {
      assert (a + b)[..|a + b| - 1] == a + b[..|b| - 1];
      ItemsLinesConcat(a, b[..|b| - 1]);
      AppendAssoc(ItemsLines(a), ItemsLines(b[..|b| - 1]), ItemLines(b[|b| - 1]));
    }
  }

  /** The channel writes 10 lines of its own, 5 more for an image, and each
      item's block. */
  lemma {:induction false} ChannelLineCount(title: string, link: string, description: string, image: Option<Image>,
                                            pubDate: DateTime, lastBuildDate: DateTime, items: seq<Item>)
    ensures |ChannelLines(title, link, description, image, pubDate, lastBuildDate, items)|
         == 10 + (if image.Some? then 5 else 0) + |ItemsLines(items)|
  {
  }

  /** The document opens with the XML declaration and the `<rss>` and
      `<channel>` lines, and closes with `</channel>` and `</rss>`. */
  lemma BuildFraming(title: string, link: string, description: string, image: Option<Image>,
                     pubDate: DateTime, lastBuildDate: DateTime, items: seq<Item>)
    ensures var lines := ChannelLines(title, link, description, image, pubDate, lastBuildDate, items);
            |lines| >= 10
            && lines[0] == XmlDeclaration && lines[1] == RssOpen && lines[2] == ChannelOpen
            && lines[|lines| - 2] == ChannelClose && lines[|lines| - 1] == RssClose
  {
  }

  /** The seventh line is `<image>` when an image was set and the channel's
      `<pubDate>` line otherwise; the dates always come right after the
      optional image block. */
  lemma {:induction false} ImageBlockIff(title: string, link: string, description: string, image: Option<Image>,
                                         pubDate: DateTime, lastBuildDate: DateTime, items: seq<Item>)
    ensures var lines := ChannelLines(title, link, description, image, pubDate, lastBuildDate, items);
            var at := 6 + |ImageLines(image)|;
            |lines| > at + 1
            && (lines[6] == ImageOpen <==> image.Some?)
            && lines[at] == Element(Outer, "pubDate", pubDate.rfc2822)
            && lines[at + 1] == Element(Outer, "lastBuildDate", lastBuildDate.rfc2822)
  {
    var lines := ChannelLines(title, link, description, image, pubDate, lastBuildDate, items);
    var before := HeadLines(title, link, description) + ImageLines(image);
    assert lines == before + DateLines(pubDate, lastBuildDate) + (ItemsLines(items) + [ChannelClose, RssClose]);
    if image.None? {
      var date := Element(Outer, "pubDate", pubDate.rfc2822);
      assert lines[6] == date;
      assert date[6] == 'p' && ImageOpen[6] == 'i';
    }
  }

  /** Inside an item block, the fifth line is the enclosure line when the
      item has an enclosure and the guid line otherwise. */
  lemma EnclosureLineIff(item: Item)
    ensures var lines := ItemLines(item);
            (item.enclosure.Some? ==> lines[4] == EnclosureLine(item.enclosure.value))
            && (item.enclosure.None? ==> lines[4] == Element(Outer, "guid", EscapeXml(item.guid)))
            && lines[|lines| - 3] == Element(Outer, "guid", EscapeXml(item.guid))
  {
  }

  /** A title without markup characters is written verbatim, as in the
      test's `<title>Test Channel</title>` and `<title>Test Item</title>`. */
  lemma TitlesVerbatim(title: string, link: string, description: string, itemTitle: string,
                       guid: string, now: DateTime)
    requires NoMarkup(title) && NoMarkup(itemTitle)
    ensures var lines := ChannelLines(title, link, description, None, now, now,
                                      [Item.New(itemTitle, link, description, guid, now)]);
            lines[3] == Element(Outer, "title", title) && lines[9] == Element(Inner, "title", itemTitle)
  {
    EscapeIdentity(title);
    EscapeIdentity(itemTitle);
    var item := Item.New(itemTitle, link, description, guid, now);
    assert ItemsLines([item]) == ItemLines(item) by {
      assert [item][..0] == [];
    }
  }

  /** Appending an item adds its block just before the two closing lines;
      everything before it is unchanged. */
  lemma AppendItemLines(title: string, link: string, description: string, image: Option<Image>,
                        pubDate: DateTime, lastBuildDate: DateTime, items: seq<Item>, item: Item)
    ensures var before := ChannelLines(title, link, description, image, pubDate, lastBuildDate, items);
            ChannelLines(title, link, description, image, pubDate, lastBuildDate, items + [item])
              == before[..|before| - 2] + ItemLines(item) + [ChannelClose, RssClose]
  {
    assert (items + [item])[..|items|] == items;
    var prefix := HeadLines(title, link, description) + ImageLines(image) + DateLines(pubDate, lastBuildDate)
                  + ItemsLines(items);
    var before := ChannelLines(title, link, description, image, pubDate, lastBuildDate, items);
    assert before == prefix + [ChannelClose, RssClose];
    assert before[..|before| - 2] == prefix;
  }

  // ---------------------------------------------------------------- the builder

  /** `Channel`: the builder methods update its fields in place. */
  class Channel {
    var title: string
    var link: string
    var description: string
    var image: Option<Image>
    var pubDate: DateTime
    var lastBuildDate: DateTime
    var items: seq<Item>

    /** The lines `Build` writes for the current fields. */
    function Lines(): seq<string>
      reads this
    {
      ChannelLines(title, link, description, image, pubDate, lastBuildDate, items)
    }

    /** `Channel::new`: no image, no items, both dates `now`. */
    constructor (title: string, link: string, description: string, now: DateTime)
      ensures this.title == title && this.link == link && this.description == description
      ensures image.None? && items == []
      ensures pubDate == now && lastBuildDate == now
    {
      this.title := title;
      this.link := link;
      this.description := description;
      image := None;
      pubDate := now;
      lastBuildDate := now;
      items := [];
    }

    /** `Channel::image`: sets the image; nothing else changes. */
    method SetImage(url: string, title: string, link: string)
      modifies this
      ensures image == Some(Image(url, title, link))
      ensures this.title == old(this.title) && this.link == old(this.link) && description == old(description)
      ensures pubDate == old(pubDate) && lastBuildDate == old(lastBuildDate) && items == old(items)
    {
      image := Some(Image(url, title, link));
    }

    /** `Channel::pub_date`. */
    method SetPubDate(date: DateTime)
      modifies this
      ensures pubDate == date
      ensures title == old(title) && link == old(link) && description == old(description)
      ensures image == old(image) && lastBuildDate == old(lastBuildDate) && items == old(items)
    {
      pubDate := date;
    }

    /** `Channel::last_build_date`. */
    method SetLastBuildDate(date: DateTime)
      modifies this
      ensures lastBuildDate == date
      ensures title == old(title) && link == old(link) && description == old(description)
      ensures image == old(image) && pubDate == old(pubDate) && items == old(items)
    {
      lastBuildDate := date;
    }

    /** `Channel::item`: appends exactly one item at the end, so the next
        document gains that item's block just before the closing lines. */
    method AddItem(item: Item)
      modifies this
      ensures items == old(items) + [item]
      ensures title == old(title) && link == old(link) && description == old(description)
      ensures image == old(image) && pubDate == old(pubDate) && lastBuildDate == old(lastBuildDate)
      ensures Lines() == old(Lines())[..|old(Lines())| - 2] + ItemLines(item) + [ChannelClose, RssClose]
    {
      AppendItemLines(title, link, description, image, pubDate, lastBuildDate, items, item);
      items := items + [item];
    }

    /** `Channel::items`: appends all given items, in order. */
    method AddItems(newItems: seq<Item>)
      modifies this
      ensures items == old(items) + newItems
      ensures title == old(title) && link == old(link) && description == old(description)
      ensures image == old(image) && pubDate == old(pubDate) && lastBuildDate == old(lastBuildDate)
    {
      items := items + newItems;
    }

    /** `Channel::build`: writes the head, the optional image, the dates,
        then one block per item in order, then the closing lines; the
        result is the rendering of `Lines()`. */
    method Build() returns (rss: string)
      ensures rss == Render(Lines())
    {
      var head := HeadLines(title, link, description) + ImageLines(image) + DateLines(pubDate, lastBuildDate);
      rss := Render(head);
      var i := 0;
      assert head + ItemsLines(items[..0]) == head;
      while i < |items|
        invariant 0 <= i <= |items|
        invariant rss == Render(head + ItemsLines(items[..i]))
      {
        assert items[..i + 1][..i] == items[..i];
        assert ItemsLines(items[..i + 1]) == ItemsLines(items[..i]) + ItemLines(items[i]);
        AppendAssoc(head, ItemsLines(items[..i]), ItemLines(items[i]));
        RenderConcat(head + ItemsLines(items[..i]), ItemLines(items[i]));
        rss := rss + Render(ItemLines(items[i]));
        i := i + 1;
      }
      assert items[..i] == items;
      var done := head + ItemsLines(items);
      RenderSnoc(done, ChannelClose);
      rss := rss + ChannelClose + "\n";
      RenderSnoc(done + [ChannelClose], RssClose);
      rss := rss + RssClose + "\n";
      AppendAssoc(done, [ChannelClose], [RssClose]);
      assert [ChannelClose] + [RssClose] == [ChannelClose, RssClose];
    }
  }
}
