/**
 * `rss_parser`: the parsed document's channel and items are collected into records,
 * then rendered either as text lines or as one JSON document.
 */
module Scrapper {
  import opened Wrappers
  import opened Dicts
  import opened Model
  import opened Extract
  import opened Render

  /** The result of `rss_parser(xml, limit, json)` for the document tree `root`;
      `serialize` stands for `dumps(data, indent=2, ensure_ascii=False)`. */
  function RssOutput(root: Element, limit: Option<int>, json: bool, serialize: Dict<Json> -> string)
    : (r: Result<seq<Value>, Error>)
    ensures FindChannel(root).None? ==> r == Err(MissingChannel)
    ensures r.Ok? ==> FindChannel(root).Some?
  {
    if FindChannel(root).None? then Err(MissingChannel)
    else
      var selected := Select(ItemRecords(root), limit);
      if json then JsonOutput(ChannelRecord(root), selected, serialize)
      else TextLines(ChannelRecord(root), selected)
  }

  /** The parser: extracts the records, then runs the branch `json` selects. */
  method RssParser(root: Element, limit: Option<int>, json: bool, serialize: Dict<Json> -> string)
    returns (r: Result<seq<Value>, Error>)
    ensures r == RssOutput(root, limit, json, serialize)
  {
    var extracted := ExtractFeed(root);
    if extracted.Err? {
      return Err(extracted.error);
    }
    var (channel, item) := extracted.value;
    if json {
      r := RenderJson(channel, item, limit, serialize);
    } else {
      r := RenderText(channel, item, limit);
    }
  }

  /** Text mode succeeds exactly when the channel exists and has a title and a link, and
      every selected item has a title and string categories; it then starts with the
      `Feed:` and `Link:` lines and has one line per present optional channel field plus
      the lines of each selected item's block. */
  lemma TextModeOutput(root: Element, limit: Option<int>, serialize: Dict<Json> -> string)
    ensures var r := RssOutput(root, limit, false, serialize);
            r.Ok? <==> FindChannel(root).Some?
                       && var ch := ChannelRecord(root);
                       var selected := Select(ItemRecords(root), limit);
                       && Has(ch, "title") && Has(ch, "link")
                       && forall i :: 0 <= i < |selected| ==> Renderable(selected[i])
    ensures var r := RssOutput(root, limit, false, serialize);
            r.Ok? ==>
              var ch := ChannelRecord(root);
              && r.value[0] == Str("Feed: " + Show(Get(ch, "title").value))
              && r.value[1] == Str("Link: " + Show(Get(ch, "link").value))
              && |r.value| == 2 + |PresentLabels(ch, ChannelLabels)|
                              + TotalBlockLength(Select(ItemRecords(root), limit))
  {
    if FindChannel(root).Some? {
      var ch := ChannelRecord(root);
      var selected := Select(ItemRecords(root), limit);
      TextLinesOk(ch, selected);
      if TextLines(ch, selected).Ok? {
        TextLinesLength(ch, selected);
      }
    }
  }

  /** JSON mode succeeds exactly when the channel exists and its categories (if any) are
      all strings: unlike text mode it does not need a title or a link. Its output is one
      string, the serialised document holding the present channel fields and the selected
      item records. */
  lemma JsonModeOutput(root: Element, limit: Option<int>, serialize: Dict<Json> -> string)
    ensures var r := RssOutput(root, limit, true, serialize);
            r.Ok? <==> FindChannel(root).Some?
                       && var ch := ChannelRecord(root);
                       !Has(ch, "category") || JoinValue("", Get(ch, "category").value).Ok?
    ensures var r := RssOutput(root, limit, true, serialize);
            r.Ok? ==>
              var data := JsonData(ChannelRecord(root), Select(ItemRecords(root), limit));
              && data.Ok?
              && r.value == [Str(serialize(data.value))]
              && Get(data.value, "items") == Some(ItemList(Select(ItemRecords(root), limit)))
  {
    if FindChannel(root).Some? {
      var ch := ChannelRecord(root);
      var selected := Select(ItemRecords(root), limit);
      JsonDataOk(ch, selected);
      if JsonData(ch, selected).Ok? {
        JsonDataShape(ch, selected);
      }
    }
  }

  // ---------------------------------------------------------------------------
  // A worked example: a channel with a title, a link and one item whose
  // `description` element is empty.

  const SampleItem := Element("item", None, [Element("title", Some("A"), []), Element("description", None, [])])
  const SampleChannel := Element("channel", None, [Element("title", Some("News"), []), Element("link", Some("L"), []), SampleItem])
  const SampleRoot := Element("rss", None, [SampleChannel])

  const SampleChannelRecord: Record := [("title", Str("News")), ("link", Str("L"))]
  const SampleItemRecord: Record := [("title", Str("A")), ("description", Null)]

  lemma ChildrenTaggedThree(a: Element, b: Element, c: Element, tag: string)
    ensures ChildrenTagged([a, b, c], tag)
            == (if a.tag == tag then [a] else []) + (if b.tag == tag then [b] else []) + (if c.tag == tag then [c] else [])
  {
    assert [a, b, c][..2] == [a, b];
    assert [a, b][..1] == [a];
    ChildrenTaggedOne(a, tag);
  }

  lemma SampleElements()
    ensures FindChannel(SampleRoot) == Some(SampleChannel)
    ensures ItemElements(SampleRoot) == [SampleItem]
  {
    ChildrenTaggedOne(SampleChannel, "channel");
    SingleChannelItems(SampleRoot, SampleChannel);
    ChildrenTaggedThree(Element("title", Some("News"), []), Element("link", Some("L"), []), SampleItem, "item");
  }

  lemma SampleChannelFold()
    ensures Fold(ChannelFields, SampleChannel.children) == SampleChannelRecord
  {
    var chTitle := Element("title", Some("News"), []);
    var chLink := Element("link", Some("L"), []);
    assert SampleChannel.children[..2] == [chTitle, chLink];
    assert [chTitle, chLink][..1] == [chTitle];
    assert [chTitle][..0] == [];
    assert Fold(ChannelFields, [chTitle]) == [("title", Str("News"))];
  }

  lemma SampleItemFold()
    ensures Fold(ItemFields, SampleItem.children) == SampleItemRecord
  {
    var title := Element("title", Some("A"), []);
    var desc := Element("description", None, []);
    assert [title, desc][..1] == [title];
    assert [title][..0] == [];
    assert Fold(ItemFields, [title]) == [("title", Str("A"))];
  }

  lemma SampleRecords()
    ensures FindChannel(SampleRoot).Some?
    ensures ChannelRecord(SampleRoot) == SampleChannelRecord
    ensures ItemRecords(SampleRoot) == [SampleItemRecord]
  {
    SampleElements();
    SampleChannelFold();
    SampleItemFold();
    var records := ItemRecords(SampleRoot);
    assert |records| == 1;
    assert records[0] == Fold(ItemFields, SampleItem.children);
  }

  lemma SampleHeader()
    ensures Header(SampleChannelRecord) == Ok([Str("Feed: News"), Str("Link: L")])
  {
    var ch := SampleChannelRecord;
    assert Keys(ch) == ["title", "link"];
    LabelledLinesNone(ch, ChannelLabels);
    assert Get(ch, "title") == Some(Str("News"));
    assert Get(ch, "link") == Some(Str("L"));
    assert "Feed: " + "News" == "Feed: News";
    assert "Link: " + "L" == "Link: L";
    assert Header(ch) == Ok([Str("Feed: News"), Str("Link: L")] + LabelledLines(ch, ChannelLabels));
    assert [Str("Feed: News"), Str("Link: L")] + LabelledLines(ch, ChannelLabels) == [Str("Feed: News"), Str("Link: L")];
  }

  lemma SampleItemBlock()
    ensures ItemBlock(SampleItemRecord) == Ok([Str(" "), Str("Title: A"), Str(" "), Null, Str(" ")])
  {
    var rec := SampleItemRecord;
    assert Keys(rec) == ["title", "description"];
    LabelledLinesNone(rec, ItemLabels);
    assert Get(rec, "title") == Some(Str("A"));
    assert Get(rec, "description") == Some(Null);
    assert "Title: " + "A" == "Title: A";
    assert CategoriesLine(rec) == Ok([]);
    assert ItemBlock(rec) == Ok([Str(" "), Str("Title: A")] + LabelledLines(rec, ItemLabels) + []
                                + [Str(" ")] + DescriptionLine(rec) + [Str(" ")]);
    assert [Str(" "), Str("Title: A")] + LabelledLines(rec, ItemLabels) + []
           + [Str(" ")] + DescriptionLine(rec) + [Str(" ")]
           == [Str(" "), Str("Title: A"), Str(" "), Null, Str(" ")];
  }

  lemma BlocksOne(item: Record)
    ensures Blocks([item]) == ItemBlock(item)
  {
    assert [item][..0] == [];
    if ItemBlock(item).Ok? {
      assert [] + ItemBlock(item).value == ItemBlock(item).value;
    }
  }

  lemma SampleBlocks()
    ensures Blocks([SampleItemRecord]) == Ok([Str(" "), Str("Title: A"), Str(" "), Null, Str(" ")])
  {
    SampleItemBlock();
    BlocksOne(SampleItemRecord);
  }

  lemma SampleText()
    ensures TextLines(SampleChannelRecord, [SampleItemRecord])
            == Ok([Str("Feed: News"), Str("Link: L"), Str(" "), Str("Title: A"), Str(" "), Null, Str(" ")])
  {
    SampleHeader();
    SampleBlocks();
    SampleLines();
  }

  lemma SampleLines()
    ensures [Str("Feed: News"), Str("Link: L")] + [Str(" "), Str("Title: A"), Str(" "), Null, Str(" ")]
            == [Str("Feed: News"), Str("Link: L"), Str(" "), Str("Title: A"), Str(" "), Null, Str(" ")]
  {
  }

  /** Text mode on the sample feed: the header, then the item's block, where the empty
      description appears as None between two `' '` lines. */
  lemma EmptyDescriptionExample(serialize: Dict<Json> -> string)
    ensures RssOutput(SampleRoot, None, false, serialize)
            == Ok([Str("Feed: News"), Str("Link: L"), Str(" "), Str("Title: A"), Str(" "), Null, Str(" ")])
  {
    SampleRecords();
    SampleText();
  }
}
