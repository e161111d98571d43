/**
 * Extraction: the two loops of `rss_parser` that walk the parsed tree and fill
 * the channel record and the item records. Both loops apply the same rule to
 * the children of one element: a recognised child overwrites its field with its
 * text, except `category`, whose stripped texts accumulate in a list. They
 * differ only in which tags they recognise, which `Schema` says.
 */
module Extract {
  import opened Wrappers
  import opened Dicts
  import opened PyStr
  import opened Model

  /** The tag set of the channel loop or of the item loop. */
  datatype Schema = ChannelFields | ItemFields

  /** The field a child with this tag is stored under, or None when the loop ignores the tag.
      On the channel the tag `pudDate` is stored under `pubDate`, and a `pubDate` child is ignored. */
  function KeyOf(schema: Schema, tag: string): Option<string>
  {
    match schema
    case ChannelFields =>
      if tag == "title" then Some("title")
      else if tag == "link" then Some("link")
      else if tag == "lastBuildDate" then Some("lastBuildDate")
      else if tag == "pudDate" then Some("pubDate")
      else if tag == "language" then Some("language")
      else if tag == "category" then Some("category")
      else if tag == "managingEditor" then Some("managingEditor")
      else if tag == "description" then Some("description")
      else None
    case ItemFields =>
      if tag == "title" then Some("title")
      else if tag == "author" then Some("author")
      else if tag == "pubDate" then Some("pubDate")
      else if tag == "link" then Some("link")
      else if tag == "category" then Some("category")
      else if tag == "description" then Some("description")
      else None
  }

  /** The only tag that fills field `key`, if any. */
  function TagOf(schema: Schema, key: string): Option<string>
  {
    match schema
    case ChannelFields =>
      if key == "pubDate" then Some("pudDate")
      else if key in {"title", "link", "lastBuildDate", "language", "category", "managingEditor", "description"}
      then Some(key)
      else None
    case ItemFields =>
      if key in {"title", "author", "pubDate", "link", "category", "description"} then Some(key) else None
  }

  /** TagOf inverts KeyOf: each field is filled by exactly one tag. */
  lemma KeyOfTagOf(schema: Schema, tag: string, key: string)
    ensures KeyOf(schema, tag) == Some(key) <==> TagOf(schema, key) == Some(tag)
  {
  }

  /** The category entry for an element's text: `text.strip() if text else None`
      (an empty text is falsy, so it gives None too). */
  function StripOrNone(text: Option<string>): Option<string>
  {
    match text
    case None => None
    case Some(s) => if s == "" then None else Some(Strip(s))
  }

  /** The category entries gathered so far. */
  function CategoryEntries(rec: Record): seq<Option<string>>
  {
    var v := Get(rec, "category");
    if v.Some? && v.value.List? then v.value.entries else []
  }

  /** One iteration of an extraction loop: the record after child `e` is seen. */
  function Absorb(schema: Schema, rec: Record, e: Element): Record
  {
    match KeyOf(schema, e.tag)
    case None => rec
    case Some(key) =>
      if key == "category" then
        var started := if Has(rec, key) then rec else Put(rec, key, List([]));
        Put(started, key, List(CategoryEntries(started) + [StripOrNone(e.text)]))
      else
        Put(rec, key, TextValue(e.text))
  }

  /** How one iteration changes a field: only the field the child maps to changes. */
  lemma {:induction false} AbsorbGet(schema: Schema, rec: Record, e: Element, key: string)
    ensures Get(Absorb(schema, rec, e), key)
            == if KeyOf(schema, e.tag) != Some(key) then Get(rec, key)
               else if key == "category" then Some(List(CategoryEntries(rec) + [StripOrNone(e.text)]))
               else Some(TextValue(e.text))
  {
  }

  /** How one iteration changes the key order: a field seen for the first time is appended. */
  lemma {:induction false} AbsorbKeys(schema: Schema, rec: Record, e: Element)
    ensures Keys(Absorb(schema, rec, e))
            == match KeyOf(schema, e.tag)
               case None => Keys(rec)
               case Some(k) => if k in Keys(rec) then Keys(rec) else Keys(rec) + [k]
  {
  }

  /** The record an extraction loop builds from `children`, starting from an empty dict. */
  function Fold(schema: Schema, children: seq<Element>): Record
  {
    if children == [] then []
    else Absorb(schema, Fold(schema, children[..|children| - 1]), children[|children| - 1])
  }

  /** One step of Fold over a prefix of the children. */
  lemma FoldStep(schema: Schema, children: seq<Element>, i: nat)
    requires i < |children|
    ensures Fold(schema, children[..i + 1]) == Absorb(schema, Fold(schema, children[..i]), children[i])
  {
    assert children[..i + 1][..i] == children[..i];
  }

  /** One extraction loop: walks the children in order, updating the record in place. */
  method BuildRecord(schema: Schema, children: seq<Element>) returns (rec: Record)
    ensures rec == Fold(schema, children)
  {
    rec := [];
    for i := 0 to |children|
      invariant rec == Fold(schema, children[..i])
    {
      ghost var before := rec;
      var e := children[i];
      var key := KeyOf(schema, e.tag);
      if key.Some? {
        if key.value == "category" {
          if !Has(rec, "category") {
            rec := Put(rec, "category", List([]));
          }
          rec := Put(rec, "category", List(CategoryEntries(rec) + [StripOrNone(e.text)]));
        } else {
          rec := Put(rec, key.value, TextValue(e.text));
        }
      }
      assert rec == Absorb(schema, before, e);
      FoldStep(schema, children, i);
    }
    assert children[..|children|] == children;
  }

  // ---------------------------------------------------------------------------
  // What the record holds, stated without the loop.

  /** The texts of the children carrying `tag`, in document order. */
  function TextsOf(children: seq<Element>, tag: string): (ts: seq<Option<string>>)
    ensures |ts| <= |children|
  {
    if children == [] then []
    else
      var e := children[|children| - 1];
      TextsOf(children[..|children| - 1], tag) + (if e.tag == tag then [e.text] else [])
  }

  function StripAll(texts: seq<Option<string>>): (entries: seq<Option<string>>)
    ensures |entries| == |texts|
  {
    if texts == [] then []
    else StripAll(texts[..|texts| - 1]) + [StripOrNone(texts[|texts| - 1])]
  }

  /** A field other than `category` holds the text of the LAST child carrying its tag,
      and is absent when no child carries it. */
  lemma {:induction false} FoldScalarField(schema: Schema, children: seq<Element>, tag: string)
    requires KeyOf(schema, tag).Some? && KeyOf(schema, tag).value != "category"
    ensures var ts := TextsOf(children, tag);
            Get(Fold(schema, children), KeyOf(schema, tag).value)
            == if ts == [] then None else Some(TextValue(ts[|ts| - 1]))
  {
    if children != [] {
      var e := children[|children| - 1];
      FoldScalarField(schema, children[..|children| - 1], tag);
      KeyOfTagOf(schema, tag, KeyOf(schema, tag).value);
      KeyOfTagOf(schema, e.tag, KeyOf(schema, tag).value);
    }
  }

  lemma {:induction false} StripAllSnoc(texts: seq<Option<string>>, t: Option<string>)
    ensures StripAll(texts + [t]) == StripAll(texts) + [StripOrNone(t)]
  {
    assert (texts + [t])[..|texts|] == texts;
  }

  /** The `category` field lists one entry per `category` child, in document order, each
      the stripped text or None; it is absent when there is no `category` child. */
  lemma {:induction false} FoldCategory(schema: Schema, children: seq<Element>)
    ensures var ts := TextsOf(children, "category");
            Get(Fold(schema, children), "category")
            == if ts == [] then None else Some(List(StripAll(ts)))
  {
    if children != [] {
      var init := children[..|children| - 1];
      var e := children[|children| - 1];
      assert Fold(schema, children) == Absorb(schema, Fold(schema, init), e);
      FoldCategory(schema, init);
      CategoryStep(schema, Fold(schema, init), e, TextsOf(init, "category"));
    }
  }

  /** One iteration adds an entry to `category` exactly for a `category` child. */
  lemma {:induction false} CategoryStep(schema: Schema, rec: Record, e: Element, ts: seq<Option<string>>)
    requires Get(rec, "category") == if ts == [] then None else Some(List(StripAll(ts)))
    ensures var ts' := ts + (if e.tag == "category" then [e.text] else []);
            Get(Absorb(schema, rec, e), "category") == if ts' == [] then None else Some(List(StripAll(ts')))
  {
    if e.tag == "category" {
      AbsorbCategory(schema, rec, e);
      assert CategoryEntries(rec) == StripAll(ts);
      StripAllSnoc(ts, e.text);
    } else {
      assert ts + [] == ts;
      AbsorbGet(schema, rec, e, "category");
      KeyOfTagOf(schema, e.tag, "category");
    }
  }

  lemma {:induction false} AbsorbCategory(schema: Schema, rec: Record, e: Element)
    requires e.tag == "category"
    ensures Get(Absorb(schema, rec, e), "category") == Some(List(CategoryEntries(rec) + [StripOrNone(e.text)]))
  {
  }

  /** On the channel, `pubDate` holds the text of the last `pudDate` child. */
  lemma {:induction false} ChannelPubDateFromPudDate(children: seq<Element>)
    ensures var ts := TextsOf(children, "pudDate");
            Get(Fold(ChannelFields, children), "pubDate")
            == if ts == [] then None else Some(TextValue(ts[|ts| - 1]))
  {
    FoldScalarField(ChannelFields, children, "pudDate");
  }

  /** Fold over the children followed by one more child. */
  lemma FoldSnoc(schema: Schema, children: seq<Element>, e: Element)
    ensures Fold(schema, children + [e]) == Absorb(schema, Fold(schema, children), e)
  {
    assert (children + [e])[..|children|] == children;
  }

  lemma SplitLast<T>(a: seq<T>, b: seq<T>)
    requires b != []
    ensures a + b == (a + b[..|b| - 1]) + [b[|b| - 1]]
  {
  }

  /** A child whose tag the loop does not recognise can be removed without changing
      the record, wherever it stands (on the channel this covers a literal `pubDate` child). */
  lemma {:induction false} FoldIgnoresUnrecognised(schema: Schema, before: seq<Element>, e: Element, after: seq<Element>)
    requires KeyOf(schema, e.tag).None?
    ensures Fold(schema, before + [e] + after) == Fold(schema, before + after)
  {
    if after == [] {
      assert before + [e] + after == before + [e] by { }
      assert before + after == before by { }
      FoldSnoc(schema, before, e);
    } else {
      var init := after[..|after| - 1];
      var x := after[|after| - 1];
      FoldIgnoresUnrecognised(schema, before, e, init);
      SplitLast(before + [e], after);
      SplitLast(before, after);
      FoldSnoc(schema, before + [e] + init, x);
      FoldSnoc(schema, before + init, x);
    }
  }

  /** Some child's tag maps to `key`. */
  predicate MapsTo(schema: Schema, children: seq<Element>, key: string)
  {
    exists i :: 0 <= i < |children| && KeyOf(schema, children[i].tag) == Some(key)
  }

  lemma MapsToSnoc(schema: Schema, children: seq<Element>, key: string)
    requires children != []
    ensures MapsTo(schema, children, key)
            <==> MapsTo(schema, children[..|children| - 1], key)
                 || KeyOf(schema, children[|children| - 1].tag) == Some(key)
  {
    var init := children[..|children| - 1];
    if MapsTo(schema, children, key) {
      var i :| 0 <= i < |children| && KeyOf(schema, children[i].tag) == Some(key);
      if i < |init| {
        assert KeyOf(schema, init[i].tag) == Some(key);
      }
    }
    if MapsTo(schema, init, key) {
      var i :| 0 <= i < |init| && KeyOf(schema, init[i].tag) == Some(key);
      assert KeyOf(schema, children[i].tag) == Some(key);
    }
  }

  /** One iteration adds the field the child maps to, and no other. */
  lemma AbsorbHas(schema: Schema, rec: Record, e: Element, key: string)
    ensures Has(Absorb(schema, rec, e), key) <==> Has(rec, key) || KeyOf(schema, e.tag) == Some(key)
  {
    AbsorbKeys(schema, rec, e);
  }

  /** A field is present exactly when some child's tag maps to it. */
  lemma {:induction false} FoldHasKey(schema: Schema, children: seq<Element>, key: string)
    ensures Has(Fold(schema, children), key)
            <==> exists i :: 0 <= i < |children| && KeyOf(schema, children[i].tag) == Some(key)
  {
    if children != [] {
      var init := children[..|children| - 1];
      var e := children[|children| - 1];
      FoldHasKey(schema, init, key);
      assert Fold(schema, children) == Absorb(schema, Fold(schema, init), e);
      AbsorbHas(schema, Fold(schema, init), e, key);
      MapsToSnoc(schema, children, key);
    }
  }

  /** The fields the children map to, in document order, repeats included. */
  function KeyTrace(schema: Schema, children: seq<Element>): seq<string>
  {
    if children == [] then []
    else
      var e := children[|children| - 1];
      KeyTrace(schema, children[..|children| - 1])
      + (match KeyOf(schema, e.tag) case Some(k) => [k] case None => [])
  }

  /** The sequence with every repeat of an earlier element dropped. */
  function Dedup(ks: seq<string>): seq<string>
  {
    if ks == [] then []
    else
      var d := Dedup(ks[..|ks| - 1]);
      if ks[|ks| - 1] in d then d else d + [ks[|ks| - 1]]
  }

  /** Fields appear in the record in the order their first child appears in the document,
      which is the order in which they are serialised. */
  lemma {:induction false} FoldKeyOrder(schema: Schema, children: seq<Element>)
    ensures Keys(Fold(schema, children)) == Dedup(KeyTrace(schema, children))
  {
    if children != [] {
      var init := children[..|children| - 1];
      var e := children[|children| - 1];
      var rec := Fold(schema, init);
      var t := KeyTrace(schema, init);
      var key := KeyOf(schema, e.tag);
      assert Fold(schema, children) == Absorb(schema, rec, e);
      assert KeyTrace(schema, children) == t + (if key.Some? then [key.value] else []);
      FoldKeyOrder(schema, init);
      AbsorbKeys(schema, rec, e);
      if key.Some? {
        var k := key.value;
        assert (t + [k])[..|t|] == t;
        assert Dedup(t + [k]) == if k in Dedup(t) then Dedup(t) else Dedup(t) + [k];
        assert Keys(Absorb(schema, rec, e)) == if k in Keys(rec) then Keys(rec) else Keys(rec) + [k];
      } else {
        assert KeyTrace(schema, children) == t;
      }
    }
  }

  /** The shape every extracted record has: no field twice, only fields of the schema,
      and a list under `category` and a single text (or None) under every other field. */
  ghost predicate WellFormed(schema: Schema, rec: Record)
  {
    && Distinct(Keys(rec))
    && forall k :: Has(rec, k) ==> TagOf(schema, k).Some? && (Get(rec, k).value.List? <==> k == "category")
  }

  /** One iteration keeps the record well formed. */
  lemma AbsorbWellFormed(schema: Schema, rec: Record, e: Element)
    requires WellFormed(schema, rec)
    ensures WellFormed(schema, Absorb(schema, rec, e))
  {
    match KeyOf(schema, e.tag)
    case None =>
    case Some(key) =>
      KeyOfTagOf(schema, e.tag, key);
      if key == "category" {
        var started := if Has(rec, key) then rec else Put(rec, key, List([]));
        PutKeepsKeysDistinct(rec, key, List([]));
        PutKeepsKeysDistinct(started, key, List(CategoryEntries(started) + [StripOrNone(e.text)]));
      } else {
        PutKeepsKeysDistinct(rec, key, TextValue(e.text));
      }
  }

  /** Every record an extraction loop builds is well formed. */
  lemma {:induction false} FoldWellFormed(schema: Schema, children: seq<Element>)
    ensures WellFormed(schema, Fold(schema, children))
  {
    if children != [] {
      var init := children[..|children| - 1];
      FoldWellFormed(schema, init);
      AbsorbWellFormed(schema, Fold(schema, init), children[|children| - 1]);
    }
  }

  // ---------------------------------------------------------------------------
  // Locating the channel and its items in the tree (`find` and `findall`).

  /** The children carrying `tag`, in document order. */
  function ChildrenTagged(children: seq<Element>, tag: string): (r: seq<Element>)
    ensures |r| <= |children|
    ensures forall e :: e in r ==> e in children && e.tag == tag
    ensures forall i :: 0 <= i < |children| && children[i].tag == tag ==> children[i] in r
  {
    if children == [] then []
    else
      var e := children[|children| - 1];
      ChildrenTagged(children[..|children| - 1], tag) + (if e.tag == tag then [e] else [])
  }

  /** The children carrying `tag` after one more child. */
  lemma ChildrenTaggedSnoc(children: seq<Element>, e: Element, tag: string)
    ensures ChildrenTagged(children + [e], tag) == ChildrenTagged(children, tag) + (if e.tag == tag then [e] else [])
  {
    assert (children + [e])[..|children|] == children;
  }

  /** A single child is selected exactly when it carries the tag. */
  lemma ChildrenTaggedOne(e: Element, tag: string)
    ensures ChildrenTagged([e], tag) == if e.tag == tag then [e] else []
  {
    assert [e][..0] == [];
  }

  /** Selecting from two runs of children selects from each in turn, so the selected
      children keep their document order. */
  lemma {:induction false} ChildrenTaggedConcat(a: seq<Element>, b: seq<Element>, tag: string)
    ensures ChildrenTagged(a + b, tag) == ChildrenTagged(a, tag) + ChildrenTagged(b, tag)
  {
    if b == [] {
      assert a + b == a;
    } else {
      var init := b[..|b| - 1];
      var x := b[|b| - 1];
      ChildrenTaggedConcat(a, init, tag);
      SplitLast(a, b);
      ChildrenTaggedSnoc(a + init, x, tag);
      ChildrenTaggedSnoc(init, x, tag);
    }
  }

  /** `root.find('channel')`: the first `channel` child of the root. */
  function FindChannel(root: Element): Option<Element>
  {
    var channels := ChildrenTagged(root.children, "channel");
    if channels == [] then None else Some(channels[0])
  }

  /** The `item` children of each channel in turn. */
  function ItemsUnder(channels: seq<Element>): seq<Element>
  {
    if channels == [] then []
    else ItemsUnder(channels[..|channels| - 1]) + ChildrenTagged(channels[|channels| - 1].children, "item")
  }

  /** `root.findall('channel/item')` */
  function ItemElements(root: Element): seq<Element>
  {
    ItemsUnder(ChildrenTagged(root.children, "channel"))
  }

  /** With one channel, the items are that channel's `item` children in document order. */
  lemma SingleChannelItems(root: Element, channel: Element)
    requires ChildrenTagged(root.children, "channel") == [channel]
    ensures FindChannel(root) == Some(channel)
    ensures ItemElements(root) == ChildrenTagged(channel.children, "item")
  {
    assert [channel][..0] == [];
    assert ItemsUnder([channel]) == ItemsUnder([]) + ChildrenTagged(channel.children, "item");
  }

  /** The channel record, when the root has a channel. */
  function ChannelRecord(root: Element): Record
    requires FindChannel(root).Some?
  {
    Fold(ChannelFields, FindChannel(root).value.children)
  }

  /** The item records, one per item element. */
  function ItemRecords(root: Element): seq<Record>
  {
    var elems := ItemElements(root);
    seq(|elems|, i requires 0 <= i < |elems| => Fold(ItemFields, elems[i].children))
  }

  /** Both extraction loops: the channel record, then one item record per `item`
      element in document order; fails when the root has no `channel` child. */
  method ExtractFeed(root: Element) returns (r: Result<(Record, seq<Record>), Error>)
    ensures FindChannel(root).None? ==> r == Err(MissingChannel)
    ensures FindChannel(root).Some? ==> r == Ok((ChannelRecord(root), ItemRecords(root)))
  {
    var channel := FindChannel(root);
    if channel.None? {
      return Err(MissingChannel);
    }
    var rec := BuildRecord(ChannelFields, channel.value.children);
    var elems := ItemElements(root);
    var items: seq<Record> := [];
    for j := 0 to |elems|
      invariant |items| == j
      invariant forall m :: 0 <= m < j ==> items[m] == Fold(ItemFields, elems[m].children)
    {
      var item := BuildRecord(ItemFields, elems[j].children);
      items := items + [item];
    }
    assert items == ItemRecords(root);
    return Ok((rec, items));
  }
}
