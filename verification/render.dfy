/**
 * Rendering: turning the channel record and the item records into the output
 * list of `rss_parser`, either as human-readable lines or as one JSON document.
 */
module Render {
  import opened Wrappers
  import opened Dicts
  import opened PyStr
  import opened Model
  import Extract

  // ---------------------------------------------------------------------------
  // Item selection: `item[:limit] if limit else item`.

  function Min(a: int, b: int): int { if a <= b then a else b }
  function Max(a: int, b: int): int { if a >= b then a else b }

  /** The stop index Python uses for `xs[:stop]` on a list of length n:
      a negative stop counts from the end, and the result is clamped to 0..n. */
  function SliceStop(stop: int, n: nat): (k: nat)
    ensures k <= n
  {
    var s := if stop < 0 then stop + n else stop;
    if s < 0 then 0 else if s > n then n else s
  }

  /** The items a rendering mode shows. The test on `limit` is truthiness, so None and 0
      both select every item; a positive limit keeps the first `limit` items and a negative
      one drops that many from the end. Either way the selection is a prefix, in order. */
  function Select<T>(items: seq<T>, limit: Option<int>): (r: seq<T>)
    ensures r <= items
    ensures limit == None || limit == Some(0) ==> r == items
    ensures limit.Some? && limit.value > 0 ==> |r| == Min(limit.value, |items|)
    ensures limit.Some? && limit.value < 0 ==> |r| == Max(0, |items| + limit.value)
  {
    match limit
    case None => items
    case Some(l) => if l == 0 then items else items[..SliceStop(l, |items|)]
  }

  // ---------------------------------------------------------------------------
  // Formatting values.

  /** `f'{v}'`, that is `str(v)`. */
  function Show(v: Value): string
  {
    match v
    case Str(s) => s
    case Null => "None"
    case List(entries) => ListRepr(entries)
  }

  /** The one-character strings a `str` yields when iterated. */
  function Chars(s: string): (r: seq<string>)
    ensures |r| == |s|
  {
    seq(|s|, i requires 0 <= i < |s| => [s[i]])
  }

  /** Every entry of the list is a string. */
  predicate AllStrings(entries: seq<Option<string>>) {
    forall i :: 0 <= i < |entries| ==> entries[i].Some?
  }

  /** The strings of a list that holds no None. */
  function Strings(entries: seq<Option<string>>): (r: seq<string>)
    requires AllStrings(entries)
    ensures |r| == |entries|
    ensures forall i :: 0 <= i < |entries| ==> entries[i] == Some(r[i])
  {
    seq(|entries|, i requires 0 <= i < |entries| && AllStrings(entries) => entries[i].value)
  }

  /** `sep.join(v)`: raises unless every element of `v` is a string. */
  function JoinValue(sep: string, v: Value): (r: Result<string, Error>)
    ensures r.Ok? <==> v.Str? || (v.List? && AllStrings(v.entries))
    ensures r.Err? ==> r.error == JoinNonString
  {
    match v
    case Str(s) => Ok(Join(sep, Chars(s)))
    case Null => Err(JoinNonString)
    case List(entries) => if AllStrings(entries) then Ok(Join(sep, Strings(entries))) else Err(JoinNonString)
  }

  // ---------------------------------------------------------------------------
  // Text mode.

  /** The conditional lines of the feed header, in their fixed order: field and label. */
  const ChannelLabels: seq<(string, string)> :=
    [("lastBuildDate", "Last Build Date: "), ("pubDate", "Publish Date: "), ("language", "Language: "),
     ("category", "Categories: "), ("managingEditor", "Editor: "), ("description", "Description: ")]

  /** The conditional lines of an item block before its categories: field and label. */
  const ItemLabels: seq<(string, string)> :=
    [("author", "Author: "), ("pubDate", "Published: "), ("link", "Link: ")]

  /** `label: value` for each listed field the record has, in list order. */
  function LabelledLines(rec: Record, labels: seq<(string, string)>): seq<Value>
  {
    if labels == [] then []
    else
      var last := labels[|labels| - 1];
      LabelledLines(rec, labels[..|labels| - 1])
      + (if Has(rec, last.0) then [Str(last.1 + Show(Get(rec, last.0).value))] else [])
  }

  /** The listed (field, label) pairs whose field the record has, in list order. */
  function PresentLabels(rec: Record, labels: seq<(string, string)>): (r: seq<(string, string)>)
    ensures forall p :: p in r ==> p in labels && Has(rec, p.0)
    ensures forall p :: p in labels && Has(rec, p.0) ==> p in r
  {
    if labels == [] then []
    else
      PresentLabels(rec, labels[..|labels| - 1])
      + (if Has(rec, labels[|labels| - 1].0) then [labels[|labels| - 1]] else [])
  }

  lemma PresentLabelsSnoc(rec: Record, labels: seq<(string, string)>, p: (string, string))
    ensures PresentLabels(rec, labels + [p]) == PresentLabels(rec, labels) + (if Has(rec, p.0) then [p] else [])
  {
    assert (labels + [p])[..|labels|] == labels;
  }

  /** Filtering two runs of labels filters the first and then the second, so the kept
      labels stay in list order. */
  lemma {:induction false} PresentLabelsConcat(rec: Record, a: seq<(string, string)>, b: seq<(string, string)>)
    ensures PresentLabels(rec, a + b) == PresentLabels(rec, a) + PresentLabels(rec, b)
  {
    if b == [] {
      assert a + b == a;
    } else {
      var init := b[..|b| - 1];
      var x := b[|b| - 1];
      var t := if Has(rec, x.0) then [x] else [];
      assert b == init + [x];
      Extract.SplitLast(a, b);
      calc {
        PresentLabels(rec, a + b);
        { PresentLabelsSnoc(rec, a + init, x); }
        PresentLabels(rec, a + init) + t;
        { PresentLabelsConcat(rec, a, init); }
        (PresentLabels(rec, a) + PresentLabels(rec, init)) + t;
        { ConcatAssoc(PresentLabels(rec, a), PresentLabels(rec, init), t); }
        PresentLabels(rec, a) + (PresentLabels(rec, init) + t);
        { PresentLabelsSnoc(rec, init, x); }
        PresentLabels(rec, a) + PresentLabels(rec, b);
      }
    }
  }

  /** A record with none of the listed fields gets no conditional lines. */
  lemma {:induction false} LabelledLinesNone(rec: Record, labels: seq<(string, string)>)
    requires forall i :: 0 <= i < |labels| ==> !Has(rec, labels[i].0)
    ensures LabelledLines(rec, labels) == []
  {
    if labels != [] {
      LabelledLinesNone(rec, labels[..|labels| - 1]);
    }
  }

  /** There is one conditional line per present field, in list order, and it shows that field. */
  lemma {:induction false} LabelledLinesPresent(rec: Record, labels: seq<(string, string)>)
    ensures var p := PresentLabels(rec, labels);
            var lines := LabelledLines(rec, labels);
            |lines| == |p|
            && forall i :: 0 <= i < |p| ==> lines[i] == Str(p[i].1 + Show(Get(rec, p[i].0).value))
  {
    if labels != [] {
      LabelledLinesPresent(rec, labels[..|labels| - 1]);
    }
  }

  /** The two mandatory header lines and the conditional ones; fails when the channel
      has no title, or else no link. */
  function Header(ch: Record): (r: Result<seq<Value>, Error>)
    ensures r.Ok? <==> Has(ch, "title") && Has(ch, "link")
    ensures !Has(ch, "title") ==> r == Err(MissingKey("title"))
    ensures Has(ch, "title") && !Has(ch, "link") ==> r == Err(MissingKey("link"))
    ensures r.Ok? ==>
              && Has(ch, "title") && Has(ch, "link")
              && |r.value| == 2 + |PresentLabels(ch, ChannelLabels)|
              && r.value[0] == Str("Feed: " + Show(Get(ch, "title").value))
              && r.value[1] == Str("Link: " + Show(Get(ch, "link").value))
  {
    if !Has(ch, "title") then Err(MissingKey("title"))
    else if !Has(ch, "link") then Err(MissingKey("link"))
    else
      LabelledLinesPresent(ch, ChannelLabels);
      Ok([Str("Feed: " + Show(Get(ch, "title").value)), Str("Link: " + Show(Get(ch, "link").value))]
         + LabelledLines(ch, ChannelLabels))
  }

  /** The `Categories:` line of an item, its categories joined by ", ". */
  function CategoriesLine(item: Record): Result<seq<Value>, Error>
  {
    if !Has(item, "category") then Ok([])
    else
      match JoinValue(", ", Get(item, "category").value)
      case Err(e) => Err(e)
      case Ok(s) => Ok([Str("Categories: " + s)])
  }

  /** The description entry of an item: the raw value, which is None for an empty element. */
  function DescriptionLine(item: Record): seq<Value>
  {
    if Has(item, "description") then [Get(item, "description").value] else []
  }

  /** Whether an item's block can be rendered: it has a title, and its categories (if any)
      are all strings. */
  predicate Renderable(item: Record)
  {
    Has(item, "title") && (Has(item, "category") ==> JoinValue(", ", Get(item, "category").value).Ok?)
  }

  /** How many lines an item's block has: four framing and title lines, plus one per
      present optional field. */
  function BlockLength(item: Record): nat
  {
    4 + |PresentLabels(item, ItemLabels)|
      + (if Has(item, "category") then 1 else 0)
      + (if Has(item, "description") then 1 else 0)
  }

  /** The block of one item: a `' '` line, the title, the optional lines, a `' '` line,
      the description if present, and a closing `' '` line. */
  function ItemBlock(item: Record): (r: Result<seq<Value>, Error>)
    ensures r.Ok? <==> Renderable(item)
    ensures !Has(item, "title") ==> r == Err(MissingKey("title"))
  {
    if !Has(item, "title") then Err(MissingKey("title"))
    else
      match CategoriesLine(item)
      case Err(e) => Err(e)
      case Ok(cats) =>
        Ok([Str(" "), Str("Title: " + Show(Get(item, "title").value))]
           + LabelledLines(item, ItemLabels) + cats
           + [Str(" ")] + DescriptionLine(item) + [Str(" ")])
  }

  /** The block of a renderable item is framed by `' '` lines: one before the title, one
      after the optional lines and one at the very end, with the description (if present)
      between the last two; it has BlockLength lines. */
  lemma ItemBlockShape(item: Record)
    requires Renderable(item)
    ensures var b := ItemBlock(item).value;
            && |b| == BlockLength(item)
            && b[0] == Str(" ")
            && b[1] == Str("Title: " + Show(Get(item, "title").value))
            && b[|b| - 1] == Str(" ")
            && (Has(item, "description") ==> b[|b| - 2] == Get(item, "description").value && b[|b| - 3] == Str(" "))
            && (!Has(item, "description") ==> b[|b| - 2] == Str(" "))
  {
    LabelledLinesPresent(item, ItemLabels);
  }

  /** The blocks of the items, one after another; the first item that cannot be
      rendered decides the error. */
  function Blocks(items: seq<Record>): Result<seq<Value>, Error>
  {
    if items == [] then Ok([])
    else
      match Blocks(items[..|items| - 1])
      case Err(e) => Err(e)
      case Ok(prefix) =>
        match ItemBlock(items[|items| - 1])
        case Err(e) => Err(e)
        case Ok(b) => Ok(prefix + b)
  }

  /** The text-mode output for a channel record and the selected items. */
  function TextLines(ch: Record, selected: seq<Record>): (r: Result<seq<Value>, Error>)
    ensures r.Ok? ==>
              && Has(ch, "title") && Has(ch, "link")
              && |r.value| >= 2
              && r.value[0] == Str("Feed: " + Show(Get(ch, "title").value))
              && r.value[1] == Str("Link: " + Show(Get(ch, "link").value))
  {
    match Header(ch)
    case Err(e) => Err(e)
    case Ok(h) =>
      match Blocks(selected)
      case Err(e) => Err(e)
      case Ok(b) => Ok(h + b)
  }

  /** One step of Blocks: the blocks of all but the last item, then the last item's. */
  lemma {:induction false} BlocksStep(items: seq<Record>)
    requires items != []
    ensures var init := Blocks(items[..|items| - 1]);
            var last := ItemBlock(items[|items| - 1]);
            Blocks(items) == if init.Err? then init else if last.Err? then Err(last.error) else Ok(init.value + last.value)
  {
  }

  lemma ConcatAssoc<T>(a: seq<T>, b: seq<T>, c: seq<T>)
    ensures (a + b) + c == a + (b + c)
  {
  }

  lemma ConcatAssocFour<T>(h: seq<T>, a: seq<T>, b: seq<T>, c: seq<T>, d: seq<T>)
    ensures h + (a + b + c + d) == h + a + b + c + d
  {
  }

  lemma SnocSlice<T>(s: seq<T>, i: nat)
    requires i < |s|
    ensures s[..i + 1] == s[..i] + [s[i]]
  {
  }

  /** Rendering one more item: its block follows the blocks of the items before it. */
  lemma BlocksSnoc(done: seq<Record>, item: Record)
    ensures Blocks(done + [item])
            == match Blocks(done)
               case Err(e) => Err(e)
               case Ok(prefix) =>
                 match ItemBlock(item)
                 case Err(e) => Err(e)
                 case Ok(b) => Ok(prefix + b)
  {
    assert (done + [item])[..|done|] == done;
  }

  /** Once an item has failed to render, rendering further items fails the same way. */
  lemma {:induction false} BlocksErrPersists(done: seq<Record>, rest: seq<Record>)
    requires Blocks(done).Err?
    ensures Blocks(done + rest) == Blocks(done)
    decreases |rest|
  {
    if rest == [] {
      assert done + rest == done;
    } else {
      var init := rest[..|rest| - 1];
      BlocksErrPersists(done, init);
      assert done + rest == (done + init) + [rest[|rest| - 1]];
      BlocksSnoc(done + init, rest[|rest| - 1]);
    }
  }

  /** Every item of the list is renderable. */
  predicate AllRenderable(items: seq<Record>) {
    forall i :: 0 <= i < |items| ==> Renderable(items[i])
  }

  /** Every item is renderable exactly when all but the last are and the last one is. */
  lemma AllRenderableSnoc(items: seq<Record>)
    requires items != []
    ensures AllRenderable(items) <==> AllRenderable(items[..|items| - 1]) && Renderable(items[|items| - 1])
  {
    var init := items[..|items| - 1];
    assert forall i :: 0 <= i < |init| ==> init[i] == items[i];
  }

  /** The blocks render exactly when every item is renderable. */
  lemma {:induction false} BlocksOk(items: seq<Record>)
    ensures Blocks(items).Ok? <==> forall i :: 0 <= i < |items| ==> Renderable(items[i])
  {
    if items != [] {
      var init := items[..|items| - 1];
      var last := items[|items| - 1];
      BlocksOk(init);
      assert Blocks(items).Ok? <==> Blocks(init).Ok? && Renderable(last) by {
        BlocksStep(items);
      }
      AllRenderableSnoc(items);
    }
  }

  /** When some item cannot be rendered, the error is the first such item's. */
  lemma {:induction false} BlocksFirstError(items: seq<Record>, j: nat)
    requires j < |items| && !Renderable(items[j])
    requires forall i :: 0 <= i < j ==> Renderable(items[i])
    ensures Blocks(items) == Err(ItemBlock(items[j]).error)
  {
    var init := items[..|items| - 1];
    if j < |init| {
      BlocksFirstError(init, j);
    } else {
      BlocksOk(init);
    }
  }

  /** The total number of lines of the item blocks. */
  function TotalBlockLength(items: seq<Record>): nat
  {
    if items == [] then 0 else TotalBlockLength(items[..|items| - 1]) + BlockLength(items[|items| - 1])
  }

  lemma {:induction false} BlocksLength(items: seq<Record>)
    requires Blocks(items).Ok?
    ensures |Blocks(items).value| == TotalBlockLength(items)
  {
    if items != [] {
      BlocksStep(items);
      BlocksLength(items[..|items| - 1]);
      ItemBlockShape(items[|items| - 1]);
    }
  }

  /** Text rendering succeeds exactly when the channel has a title and a link and every
      selected item is renderable. */
  lemma TextLinesOk(ch: Record, selected: seq<Record>)
    ensures TextLines(ch, selected).Ok?
            <==> Has(ch, "title") && Has(ch, "link")
                 && forall i :: 0 <= i < |selected| ==> Renderable(selected[i])
  {
    BlocksOk(selected);
  }

  /** The text output has the header's lines plus the lines of every selected item's block. */
  lemma TextLinesLength(ch: Record, selected: seq<Record>)
    requires TextLines(ch, selected).Ok?
    ensures |TextLines(ch, selected).value|
            == 2 + |PresentLabels(ch, ChannelLabels)| + TotalBlockLength(selected)
  {
    BlocksLength(selected);
  }

  /** Every conditional line is a string. */
  lemma LabelledLinesAreStrings(rec: Record, labels: seq<(string, string)>)
    ensures forall v :: v in LabelledLines(rec, labels) ==> v.Str?
  {
    LabelledLinesPresent(rec, labels);
  }

  /** Some entry of the list is not a string. */
  predicate HasNonString(vs: seq<Value>) {
    exists v :: v in vs && !v.Str?
  }

  /** The item has a description that is not a string (None, from an empty element). */
  predicate NonStringDescription(item: Record) {
    Has(item, "description") && !Get(item, "description").value.Str?
  }

  lemma HasNonStringConcat(a: seq<Value>, b: seq<Value>)
    ensures HasNonString(a + b) <==> HasNonString(a) || HasNonString(b)
  {
    assert forall v :: v in a + b <==> v in a || v in b;
  }

  /** The only entry of a block that can be other than a string is the description. */
  lemma ItemBlockNonStrings(item: Record)
    requires Renderable(item)
    ensures HasNonString(ItemBlock(item).value) <==> NonStringDescription(item)
  {
    var cats := CategoriesLine(item).value;
    var lines := LabelledLines(item, ItemLabels);
    var head := [Str(" "), Str("Title: " + Show(Get(item, "title").value))] + lines + cats + [Str(" ")];
    var desc := DescriptionLine(item);
    assert ItemBlock(item).value == head + desc + [Str(" ")];
    assert !HasNonString(head) by {
      LabelledLinesAreStrings(item, ItemLabels);
      assert forall v :: v in head ==> v in lines || v in cats || v.Str?;
    }
    assert HasNonString(desc) <==> NonStringDescription(item) by {
      if Has(item, "description") {
        assert desc[0] in desc;
      }
    }
    HasNonStringConcat(head, desc);
    HasNonStringConcat(head + desc, [Str(" ")]);
    assert !HasNonString([Str(" ")]);
  }

  /** Every entry of the blocks is a string unless some item has a description that is
      not a string: an empty `description` element puts None into the output list. */
  lemma {:induction false} BlocksNonStrings(items: seq<Record>)
    requires Blocks(items).Ok?
    ensures HasNonString(Blocks(items).value)
            <==> exists i :: 0 <= i < |items| && NonStringDescription(items[i])
  {
    if items != [] {
      var init := items[..|items| - 1];
      var last := items[|items| - 1];
      BlocksStep(items);
      BlocksOk(items);
      assert Renderable(items[|items| - 1]);
      BlocksNonStrings(init);
      ItemBlockNonStrings(last);
      HasNonStringConcat(Blocks(init).value, ItemBlock(last).value);
      assert HasNonString(Blocks(items).value)
             <==> HasNonString(Blocks(init).value) || NonStringDescription(last);
      if exists i :: 0 <= i < |items| && NonStringDescription(items[i]) {
        var i :| 0 <= i < |items| && NonStringDescription(items[i]);
        if i < |init| {
          assert init[i] == items[i];
          assert NonStringDescription(init[i]);
        } else {
          assert i == |items| - 1;
        }
        assert HasNonString(Blocks(items).value);
      } else {
        forall i | 0 <= i < |init| ensures !NonStringDescription(init[i]) {
          assert init[i] == items[i];
        }
        assert !NonStringDescription(last);
        assert !HasNonString(Blocks(items).value);
      }
    }
  }

  /** Appending one more (field, caption) pair after `done` adds its line when the record has the field. */
  lemma LabelledLinesSnoc(rec: Record, done: seq<(string, string)>, key: string, caption: string)
    ensures LabelledLines(rec, done + [(key, caption)])
            == LabelledLines(rec, done) + (if Has(rec, key) then [Str(caption + Show(Get(rec, key).value))] else [])
  {
    assert (done + [(key, caption)])[..|done|] == done;
  }

  /** `if key in rec: output.append(f'{caption}{rec[key]}')`. */
  method AppendIfPresent(output: seq<Value>, rec: Record, key: string, caption: string,
                         ghost base: seq<Value>, ghost done: seq<(string, string)>)
    returns (out: seq<Value>)
    requires output == base + LabelledLines(rec, done)
    ensures out == base + LabelledLines(rec, done + [(key, caption)])
  {
    out := output;
    if Has(rec, key) {
      out := out + [Str(caption + Show(Get(rec, key).value))];
    }
    LabelledLinesSnoc(rec, done, key, caption);
  }

  /** The title line and the author, publication-date and link lines of an item. */
  method AppendTitleLines(output: seq<Value>, item: Record) returns (out: seq<Value>)
    requires Has(item, "title")
    ensures out == output + [Str("Title: " + Show(Get(item, "title").value))] + LabelledLines(item, ItemLabels)
  {
    out := output + [Str("Title: " + Show(Get(item, "title").value))];
    ghost var titled := out;
    ghost var done: seq<(string, string)> := [];
    out := AppendIfPresent(out, item, "author", "Author: ", titled, done);
    done := done + [("author", "Author: ")];
    out := AppendIfPresent(out, item, "pubDate", "Published: ", titled, done);
    done := done + [("pubDate", "Published: ")];
    out := AppendIfPresent(out, item, "link", "Link: ", titled, done);
    done := done + [("link", "Link: ")];
    assert done == ItemLabels;
  }

  /** The categories line, the description between two `' '` lines, and the closing line. */
  method AppendClosingLines(output: seq<Value>, item: Record) returns (r: Result<seq<Value>, Error>)
    ensures r == match CategoriesLine(item)
                 case Err(e) => Err(e)
                 case Ok(cats) => Ok(output + (cats + [Str(" ")] + DescriptionLine(item) + [Str(" ")]))
  {
    var out := output;
    ghost var cats: seq<Value> := [];
    if Has(item, "category") {
      var joined := JoinValue(", ", Get(item, "category").value);
      if joined.Err? {
        return Err(joined.error);
      }
      cats := [Str("Categories: " + joined.value)];
      out := out + [Str("Categories: " + joined.value)];
    }
    assert CategoriesLine(item) == Ok(cats);
    out := out + [Str(" ")];
    if Has(item, "description") {
      out := out + [Get(item, "description").value];
    }
    out := out + [Str(" ")];
    assert out == output + (cats + [Str(" ")] + DescriptionLine(item) + [Str(" ")]);
    return Ok(out);
  }

  /** The lines one iteration of the item loop appends to the output list. */
  method AppendItem(output: seq<Value>, item: Record) returns (r: Result<seq<Value>, Error>)
    ensures r == match ItemBlock(item) case Err(e) => Err(e) case Ok(b) => Ok(output + b)
  {
    var out := output + [Str(" ")];
    if !Has(item, "title") {
      return Err(MissingKey("title"));
    }
    out := AppendTitleLines(out, item);
    ghost var head := [Str(" "), Str("Title: " + Show(Get(item, "title").value))] + LabelledLines(item, ItemLabels);
    assert out == output + head;
    r := AppendClosingLines(out, item);
    if r.Ok? {
      ghost var cats := CategoriesLine(item).value;
      ghost var tail := cats + [Str(" ")] + DescriptionLine(item) + [Str(" ")];
      ConcatAssoc(output, head, tail);
      ConcatAssocFour(head, cats, [Str(" ")], DescriptionLine(item), [Str(" ")]);
    }
  }

  /** The conditional channel lines of the header, in their fixed order. */
  method AppendChannelLines(output: seq<Value>, ch: Record) returns (out: seq<Value>)
    ensures out == output + LabelledLines(ch, ChannelLabels)
  {
    out := output;
    ghost var done: seq<(string, string)> := [];
    out := AppendIfPresent(out, ch, "lastBuildDate", "Last Build Date: ", output, done);
    done := done + [("lastBuildDate", "Last Build Date: ")];
    out := AppendIfPresent(out, ch, "pubDate", "Publish Date: ", output, done);
    done := done + [("pubDate", "Publish Date: ")];
    out := AppendIfPresent(out, ch, "language", "Language: ", output, done);
    done := done + [("language", "Language: ")];
    out := AppendIfPresent(out, ch, "category", "Categories: ", output, done);
    done := done + [("category", "Categories: ")];
    out := AppendIfPresent(out, ch, "managingEditor", "Editor: ", output, done);
    done := done + [("managingEditor", "Editor: ")];
    out := AppendIfPresent(out, ch, "description", "Description: ", output, done);
    done := done + [("description", "Description: ")];
    assert done == ChannelLabels;
  }

  /** The header part of the text branch: the feed title and link lines (raising when
      either field is missing), then the conditional channel lines. */
  method HeaderLines(ch: Record) returns (r: Result<seq<Value>, Error>)
    ensures r == Header(ch)
  {
    var output: seq<Value> := [];
    if !Has(ch, "title") {
      return Err(MissingKey("title"));
    }
    output := output + [Str("Feed: " + Show(Get(ch, "title").value))];
    if !Has(ch, "link") {
      return Err(MissingKey("link"));
    }
    output := output + [Str("Link: " + Show(Get(ch, "link").value))];
    assert output == [Str("Feed: " + Show(Get(ch, "title").value)), Str("Link: " + Show(Get(ch, "link").value))];
    output := AppendChannelLines(output, ch);
    return Ok(output);
  }

  /** The item loop of the text branch: appends the block of each item in turn; the first
      item that cannot be rendered raises. */
  method AppendBlocks(output: seq<Value>, selected: seq<Record>) returns (r: Result<seq<Value>, Error>)
    ensures r == match Blocks(selected) case Err(e) => Err(e) case Ok(b) => Ok(output + b)
  {
    var out := output;
    for i := 0 to |selected|
      invariant Blocks(selected[..i]).Ok?
      invariant out == output + Blocks(selected[..i]).value
    {
      var next := AppendItem(out, selected[i]);
      SnocSlice(selected, i);
      BlocksSnoc(selected[..i], selected[i]);
      if next.Err? {
        BlocksErrPersists(selected[..i + 1], selected[i + 1..]);
        assert selected[..i + 1] + selected[i + 1..] == selected;
        return Err(next.error);
      }
      ConcatAssoc(output, Blocks(selected[..i]).value, ItemBlock(selected[i]).value);
      out := next.value;
    }
    assert selected[..|selected|] == selected;
    return Ok(out);
  }

  /** The text-mode emitter: the header lines, then the block of each selected item,
      appended to the output list one by one. */
  method RenderText(ch: Record, items: seq<Record>, limit: Option<int>) returns (r: Result<seq<Value>, Error>)
    ensures r == TextLines(ch, Select(items, limit))
  {
    var header := HeaderLines(ch);
    if header.Err? {
      return header;
    }
    r := AppendBlocks(header.value, Select(items, limit));
  }

  // ---------------------------------------------------------------------------
  // JSON mode.

  /** The channel fields copied into the JSON document, in order. */
  const JsonFields: seq<string> :=
    ["title", "link", "lastBuildDate", "pubDate", "language", "category", "managingEditor", "description"]

  /** A value of the JSON document: a channel field, or the list of selected item records. */
  datatype Json = Field(value: Value) | ItemList(items: seq<Record>)

  /** The fields of the list the record has, in list order. */
  function PresentKeys(rec: Record, keys: seq<string>): (r: seq<string>)
    ensures forall k :: k in r ==> k in keys && Has(rec, k)
    ensures forall k :: k in keys && Has(rec, k) ==> k in r
  {
    if keys == [] then []
    else PresentKeys(rec, keys[..|keys| - 1]) + (if Has(rec, keys[|keys| - 1]) then [keys[|keys| - 1]] else [])
  }

  lemma PresentKeysSnoc(rec: Record, keys: seq<string>, k: string)
    ensures PresentKeys(rec, keys + [k]) == PresentKeys(rec, keys) + (if Has(rec, k) then [k] else [])
  {
    assert (keys + [k])[..|keys|] == keys;
  }

  /** Filtering two runs of fields filters the first and then the second, so the kept
      fields stay in list order. */
  lemma {:induction false} PresentKeysConcat(rec: Record, a: seq<string>, b: seq<string>)
    ensures PresentKeys(rec, a + b) == PresentKeys(rec, a) + PresentKeys(rec, b)
  {
    if b == [] {
      assert a + b == a;
    } else {
      var init := b[..|b| - 1];
      var x := b[|b| - 1];
      var t := if Has(rec, x) then [x] else [];
      assert b == init + [x];
      Extract.SplitLast(a, b);
      calc {
        PresentKeys(rec, a + b);
        { PresentKeysSnoc(rec, a + init, x); }
        PresentKeys(rec, a + init) + t;
        { PresentKeysConcat(rec, a, init); }
        (PresentKeys(rec, a) + PresentKeys(rec, init)) + t;
        { ConcatAssoc(PresentKeys(rec, a), PresentKeys(rec, init), t); }
        PresentKeys(rec, a) + (PresentKeys(rec, init) + t);
        { PresentKeysSnoc(rec, init, x); }
        PresentKeys(rec, a) + PresentKeys(rec, b);
      }
    }
  }

  /** What the document holds for a present channel field: the field's value, except that
      `category` becomes its entries joined with no separator. */
  function JsonField(ch: Record, key: string): Result<Json, Error>
    requires Has(ch, key)
  {
    if key == "category" then
      match JoinValue("", Get(ch, key).value)
      case Err(e) => Err(e)
      case Ok(s) => Ok(Field(Str(s)))
    else Ok(Field(Get(ch, key).value))
  }

  /** The document after copying the listed fields the channel has. */
  function CopyFields(ch: Record, keys: seq<string>): Result<Dict<Json>, Error>
  {
    if keys == [] then Ok([])
    else
      match CopyFields(ch, keys[..|keys| - 1])
      case Err(e) => Err(e)
      case Ok(data) =>
        var key := keys[|keys| - 1];
        if !Has(ch, key) then Ok(data)
        else
          match JsonField(ch, key)
          case Err(e) => Err(e)
          case Ok(v) => Ok(Put(data, key, v))
  }

  /** The JSON document for a channel record and the selected items. */
  function JsonData(ch: Record, selected: seq<Record>): Result<Dict<Json>, Error>
  {
    match CopyFields(ch, JsonFields)
    case Err(e) => Err(e)
    case Ok(data) => Ok(Put(data, "items", ItemList(selected)))
  }

  /** The JSON-mode output: the serialised document as the single entry of the output list. */
  function JsonOutput(ch: Record, selected: seq<Record>, serialize: Dict<Json> -> string): (r: Result<seq<Value>, Error>)
    ensures r.Ok? ==> |r.value| == 1 && r.value[0].Str?
  {
    match JsonData(ch, selected)
    case Err(e) => Err(e)
    case Ok(data) => Ok([Str(serialize(data))])
  }

  /** Copying fails exactly when a listed, present field cannot be converted. */
  lemma {:induction false} CopyFieldsOk(ch: Record, keys: seq<string>)
    ensures CopyFields(ch, keys).Ok? <==> forall k :: k in keys && Has(ch, k) ==> JsonField(ch, k).Ok?
    ensures CopyFields(ch, keys).Err? ==> CopyFields(ch, keys).error == JoinNonString
  {
    if keys != [] {
      var init := keys[..|keys| - 1];
      CopyFieldsOk(ch, init);
      assert forall k :: k in keys <==> k in init || k == keys[|keys| - 1];
    }
  }

  /** The copied document has one key per present listed field, in list order, holding
      that field's converted value. */
  lemma {:induction false} CopyFieldsContent(ch: Record, keys: seq<string>)
    requires Distinct(keys)
    requires CopyFields(ch, keys).Ok?
    ensures var data := CopyFields(ch, keys).value;
            && Keys(data) == PresentKeys(ch, keys)
            && (forall k :: Get(data, k).Some? <==> k in keys && Has(ch, k))
            && (forall k :: k in keys && Has(ch, k) ==> JsonField(ch, k) == Ok(Get(data, k).value))
  {
    if keys != [] {
      var init := keys[..|keys| - 1];
      var key := keys[|keys| - 1];
      assert Distinct(init);
      CopyFieldsContent(ch, init);
      assert key !in init;
      assert forall k :: k in keys <==> k in init || k == key;
    }
  }

  lemma JsonFieldsDistinct()
    ensures Distinct(JsonFields)
  {
  }

  /** The JSON document: a key for each channel field present, in the fixed order,
      then `items` holding exactly the selected item records. */
  lemma JsonDataShape(ch: Record, selected: seq<Record>)
    requires JsonData(ch, selected).Ok?
    ensures var data := JsonData(ch, selected).value;
            && Keys(data) == PresentKeys(ch, JsonFields) + ["items"]
            && Get(data, "items") == Some(ItemList(selected))
            && forall k :: k in JsonFields && k != "category" ==>
                 Get(data, k) == if Has(ch, k) then Some(Field(Get(ch, k).value)) else None
  {
    JsonFieldsDistinct();
    CopyFieldsContent(ch, JsonFields);
  }

  /** The channel's categories appear in the document as one string, their entries
      concatenated with no separator. */
  lemma JsonCategory(ch: Record, selected: seq<Record>)
    requires JsonData(ch, selected).Ok? && Has(ch, "category")
    ensures var joined := JoinValue("", Get(ch, "category").value);
            joined.Ok? && Get(JsonData(ch, selected).value, "category") == Some(Field(Str(joined.value)))
  {
    JsonFieldsDistinct();
    CopyFieldsOk(ch, JsonFields);
    CopyFieldsContent(ch, JsonFields);
  }

  /** JSON rendering fails exactly when the channel's categories include a non-string entry;
      a missing title or link does not make it fail. */
  lemma JsonDataOk(ch: Record, selected: seq<Record>)
    ensures JsonData(ch, selected).Ok?
            <==> !Has(ch, "category") || JoinValue("", Get(ch, "category").value).Ok?
  {
    CopyFieldsOk(ch, JsonFields);
  }

  /** Copying one more field after `done`: the field is added when the channel has it. */
  lemma CopyFieldsSnoc(ch: Record, done: seq<string>, key: string)
    ensures CopyFields(ch, done + [key])
            == match CopyFields(ch, done)
               case Err(e) => Err(e)
               case Ok(data) =>
                 if !Has(ch, key) then Ok(data)
                 else match JsonField(ch, key) case Err(e) => Err(e) case Ok(v) => Ok(Put(data, key, v))
  {
    assert (done + [key])[..|done|] == done;
  }

  /** `if key in channel: data[key] = channel[key]`, for a field other than `category`. */
  method CopyField(ch: Record, data: Dict<Json>, key: string, ghost done: seq<string>) returns (r: Dict<Json>)
    requires key != "category"
    requires CopyFields(ch, done) == Ok(data)
    ensures CopyFields(ch, done + [key]) == Ok(r)
  {
    r := data;
    if Has(ch, key) {
      r := Put(data, key, Field(Get(ch, key).value));
    }
    CopyFieldsSnoc(ch, done, key);
  }

  /** `if 'category' in channel: data['category'] = ''.join(channel['category'])`. */
  method CopyCategory(ch: Record, data: Dict<Json>, ghost done: seq<string>) returns (r: Result<Dict<Json>, Error>)
    requires CopyFields(ch, done) == Ok(data)
    ensures CopyFields(ch, done + ["category"]) == r
  {
    CopyFieldsSnoc(ch, done, "category");
    if !Has(ch, "category") {
      return Ok(data);
    }
    var joined := JoinValue("", Get(ch, "category").value);
    if joined.Err? {
      return Err(joined.error);
    }
    return Ok(Put(data, "category", Field(Str(joined.value))));
  }

  /** Once copying has failed, copying further fields fails the same way. */
  lemma {:induction false} CopyFieldsErrPersists(ch: Record, done: seq<string>, rest: seq<string>)
    requires CopyFields(ch, done).Err?
    ensures CopyFields(ch, done + rest) == CopyFields(ch, done)
    decreases |rest|
  {
    if rest == [] {
      assert done + rest == done;
    } else {
      var init := rest[..|rest| - 1];
      CopyFieldsErrPersists(ch, done, init);
      assert done + rest == (done + init) + [rest[|rest| - 1]];
      CopyFieldsSnoc(ch, done + init, rest[|rest| - 1]);
    }
  }

  /** The first part of the JSON branch: copies the present channel fields into a new dict,
      joining the categories into one string. */
  method CopyChannelFields(ch: Record) returns (r: Result<Dict<Json>, Error>)
    ensures r == CopyFields(ch, JsonFields)
  {
    var data: Dict<Json> := [];
    ghost var done: seq<string> := [];
    data := CopyField(ch, data, "title", done);
    done := done + ["title"];
    data := CopyField(ch, data, "link", done);
    done := done + ["link"];
    data := CopyField(ch, data, "lastBuildDate", done);
    done := done + ["lastBuildDate"];
    data := CopyField(ch, data, "pubDate", done);
    done := done + ["pubDate"];
    data := CopyField(ch, data, "language", done);
    done := done + ["language"];
    var withCategory := CopyCategory(ch, data, done);
    done := done + ["category"];
    if withCategory.Err? {
      CopyFieldsErrPersists(ch, done, ["managingEditor", "description"]);
      assert done + ["managingEditor", "description"] == JsonFields;
      return withCategory;
    }
    data := CopyField(ch, withCategory.value, "managingEditor", done);
    done := done + ["managingEditor"];
    data := CopyField(ch, data, "description", done);
    done := done + ["description"];
    assert done == JsonFields;
    return Ok(data);
  }

  /** The JSON-mode builder: copies the present channel fields, adds the selected items,
      and emits the serialised document as the only entry of the output list. */
  method RenderJson(ch: Record, items: seq<Record>, limit: Option<int>, serialize: Dict<Json> -> string)
    returns (r: Result<seq<Value>, Error>)
    ensures r == JsonOutput(ch, Select(items, limit), serialize)
  {
    var copied := CopyChannelFields(ch);
    if copied.Err? {
      return Err(copied.error);
    }
    var data := Put(copied.value, "items", ItemList(Select(items, limit)));
    return Ok([Str(serialize(data))]);
  }
}
