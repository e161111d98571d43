# rss_parser, modelled in Dafny

`rss_parser` (in `rss_scrapper.py`) turns an RSS document into a list of output
lines. It works in two stages.

1. **Extraction.** It walks the `channel` element and fills a channel dict. It then
   walks every `item` element under a channel and fills one dict per item.
   - A recognised child overwrites its field with the child's text, so the last one wins.
   - `category` children instead accumulate in a list. Each entry is the stripped text,
     or None when the element has no text.
   - Unrecognised children are ignored.
   - On the channel, the tag spelled `pudDate` fills the field `pubDate`. A child
     literally tagged `pubDate` is therefore ignored. The model keeps this spelling.
2. **Rendering.** The items shown are `item[:limit] if limit else item`. From there the
   output is one of two forms.
   - **Text mode** emits the `Feed:` and `Link:` lines, then up to six conditional channel
     lines, then one block per selected item. Each block is framed by lines holding a
     single space.
   - **JSON mode** builds an ordered dict of the present channel fields, with the
     categories joined into one string, then `items`. It emits the serialised dict as
     the only line.

The model has one file per concern:

- `wrappers.dfy`: Option and Result.
- `dicts.dfy`: Python dicts as insertion-ordered association lists. Assigning to an
  existing key keeps its position, as in Python. The order matters because it is the
  order JSON serialisation writes the keys in.
- `pystr.dfy`: `str.strip`, `str.join` and `repr` of a list of strings.
- `model.dfy`: the element tree, the Python values and the error kinds.
- `extract.dfy`: both extraction loops.
  - `BuildRecord` is the loop. It is proved equal to the fold `Fold`, and the lemmas
    about `Fold` state what a record holds.
  - `ExtractFeed` runs both loops.
- `render.dfy`: selection and both renderers.
  - The text emitter appends line by line: `HeaderLines`, `AppendItem`, `AppendBlocks`
    and `RenderText`.
  - The JSON builder copies field by field: `CopyField`, `CopyCategory`,
    `CopyChannelFields` and `RenderJson`.
  - Each method is proved equal to a specification function (`Header`, `ItemBlock`,
    `Blocks`, `TextLines`, `CopyFields`, `JsonOutput`). The lemmas about those functions
    state the line order, the line counts, the key order and when rendering fails.
- `scrapper.dfy`: `RssParser`, the whole function. It also holds lemmas about its result
  in each mode and a worked example.

Four behaviours of the code that are easy to misread; the model follows the code:

- An item block is framed by lines holding a single space `' '`, not by empty lines
  (`rss_scrapper.py:109`, `119`, `122`).
- `limit` can be any integer. A negative limit drops that many items from the end, as a
  Python slice does. 0 and None skip the slice altogether, and a limit of at least the
  number of items also keeps every item.
- A `description` element with no text puts None itself into the output list in text mode
  (`rss_scrapper.py:121`). The output list is therefore a list of Python values. The
  lemmas `BlocksNonStrings` and `EmptyDescriptionExample` state this.
- Joining categories raises when an entry is None. In JSON mode this happens for the
  channel's categories (`rss_scrapper.py:86`); in text mode, for an item's categories
  (`rss_scrapper.py:118`). The model returns the error `JoinNonString`.

## Model

| member | source | states |
|---|---|---|
| Dicts.Get | rss_scrapper.py:46 | a lookup finds a value exactly when the key is in the dict |
| Dicts.Put | rss_scrapper.py:36 | after `d[k] = v` the key maps to v; every other key keeps its value; the key order is unchanged for an existing key, and a new key is appended |
| Dicts.PutKeepsKeysDistinct | rss_scrapper.py:36 | assignment never creates a second entry for a key |
| PyStr.Strip | rss_scrapper.py:48 | the result is the input with leading and trailing whitespace removed: it is a slice of the input, the parts cut off are all whitespace, and the result neither starts nor ends with whitespace |
| PyStr.JoinLength | rss_scrapper.py:86 | the joined string has the total length of the parts plus one separator between each neighbouring pair |
| PyStr.JoinSnoc | rss_scrapper.py:118 | joining one more part appends the separator and then that part, so the item categories appear in order separated by `, ` |
| PyStr.JoinEmptySeparator | rss_scrapper.py:86 | joining with the empty separator writes the parts one after another with nothing between them |
| PyStr.ListRepr | rss_scrapper.py:103 | `str(list)` starts with `[` and ends with `]` |
| Extract.KeyOfTagOf | rss_scrapper.py:35-70 | each field is filled by exactly one tag; on the channel, `pubDate` is filled by `pudDate` |
| Extract.AbsorbGet | rss_scrapper.py:35-52 | one loop iteration changes only the field the child's tag maps to: a text field is overwritten, and `category` gains one entry |
| Extract.AbsorbKeys | rss_scrapper.py:35-52 | one loop iteration appends a field to the key order only the first time the field is set |
| Extract.BuildRecord | rss_scrapper.py:34-52 | the extraction loop builds exactly the record `Fold` describes; the same holds for the item loop, lines 56-70 |
| Extract.FoldScalarField | rss_scrapper.py:35-44 | a field other than `category` holds the text of the last child with its tag, and is absent when no child has the tag; the same holds for items, lines 57-64 and 69-70 |
| Extract.FoldCategory | rss_scrapper.py:45-48 | `category` lists one entry per `category` child in document order, each the stripped text or None (also None for an empty text), and is absent when there is none; the same holds for items, lines 65-68 |
| Extract.ChannelPubDateFromPudDate | rss_scrapper.py:41-42 | the channel's `pubDate` holds the text of the last `pudDate` child |
| Extract.FoldIgnoresUnrecognised | rss_scrapper.py:34-52 | removing a child with an unrecognised tag, wherever it stands, leaves the record unchanged; this covers a literal `pubDate` child of the channel |
| Extract.FoldHasKey | rss_scrapper.py:34-52 | a field is present exactly when some child's tag maps to it |
| Extract.FoldKeyOrder | rss_scrapper.py:34-52 | fields appear in the record in the order their first child appears in the document |
| Extract.AbsorbWellFormed | rss_scrapper.py:35-52 | one loop iteration keeps the record well formed |
| Extract.FoldWellFormed | rss_scrapper.py:34-71 | every extracted record has no repeated key and only fields of its loop, with a list under `category` and a text or None under every other field |
| Extract.ChildrenTagged | rss_scrapper.py:54 | the selected children are exactly the given children that carry the tag: each selected child carries it and comes from the input, and every input child carrying it is selected |
| Extract.ChildrenTaggedOne | rss_scrapper.py:54 | a single child is selected exactly when it carries the tag |
| Extract.ChildrenTaggedConcat | rss_scrapper.py:54 | selecting from two runs of children selects from the first and then from the second, so document order is kept |
| Extract.SingleChannelItems | rss_scrapper.py:34 | with one channel, `find('channel')` is that channel, and `findall('channel/item')` gives its `item` children in document order |
| Extract.ExtractFeed | rss_scrapper.py:29-71 | without a `channel` child it fails with MissingChannel; otherwise it returns the channel record and one record per `item` element, in document order |
| Render.SliceStop | rss_scrapper.py:91 | the stop index of a slice never exceeds the list length |
| Render.Select | rss_scrapper.py:91 | the selection is a prefix of the items; None or 0 selects all of them; a positive limit selects `min(limit, n)`, and a negative one `max(0, n + limit)`; text mode uses the same rule on line 108 |
| Render.JoinValue | rss_scrapper.py:86 | `sep.join(v)` succeeds exactly when v is a string or a list of strings, and otherwise fails with JoinNonString; text mode joins the same way on line 118 |
| Render.LabelledLinesNone | rss_scrapper.py:96-107 | a record with none of the listed fields gets no conditional lines |
| Render.PresentLabels | rss_scrapper.py:96-107 | the labels kept are exactly the listed ones whose field the record has |
| Render.PresentLabelsConcat | rss_scrapper.py:96-107 | the labels kept from two runs of labels are those kept from the first, then those kept from the second, so the fixed label order is kept |
| Render.LabelledLinesPresent | rss_scrapper.py:96-107 | there is one conditional line per present field, in the fixed order, showing that field's value after its label |
| Render.Header | rss_scrapper.py:94-107 | the header renders exactly when the channel has a title and a link. A missing title, then a missing link, gives MissingKey. Otherwise it has 2 + (present optional fields) lines, starting with `Feed:` and `Link:` |
| Render.ItemBlock | rss_scrapper.py:109-122 | a block renders exactly when the item has a title and its categories are all strings; a missing title fails with MissingKey("title") |
| Render.ItemBlockShape | rss_scrapper.py:109-122 | a block has BlockLength lines: a `' '` line, the `Title:` line, the optional lines, a `' '` line, the description if present, and a closing `' '` line |
| Render.TextLines | rss_scrapper.py:94-122 | successful text output has at least two lines, the `Feed:` and `Link:` lines of a channel that has both fields |
| Render.BlocksOk | rss_scrapper.py:108-122 | the item blocks render exactly when every selected item is renderable |
| Render.BlocksFirstError | rss_scrapper.py:108-122 | when some item cannot be rendered, the error is that of the first such item |
| Render.BlocksErrPersists | rss_scrapper.py:108 | once an item has failed, further items do not change the error |
| Render.BlocksLength | rss_scrapper.py:108-122 | the blocks together have the sum of the block lengths of the items |
| Render.TextLinesOk | rss_scrapper.py:94-122 | text output succeeds exactly when the channel has a title and a link and every selected item is renderable |
| Render.TextLinesLength | rss_scrapper.py:94-122 | the text output has 2 + (present optional channel fields) + (sum of the selected items' block lengths) lines |
| Render.LabelledLinesAreStrings | rss_scrapper.py:96-116 | every conditional line is a string |
| Render.ItemBlockNonStrings | rss_scrapper.py:120-121 | the only entry of a block that can be other than a string is the raw description |
| Render.BlocksNonStrings | rss_scrapper.py:108-122 | the output holds a non-string exactly when some selected item has a description that is not a string |
| Render.AppendIfPresent | rss_scrapper.py:96-97 | `if key in rec: output.append(label + value)` adds exactly the next conditional line |
| Render.AppendTitleLines | rss_scrapper.py:110-116 | appends the `Title:` line and the Author, Published and Link lines in that order |
| Render.AppendClosingLines | rss_scrapper.py:117-122 | appends the Categories line (or fails on a non-string category), `' '`, the description if present, and `' '` |
| Render.AppendItem | rss_scrapper.py:109-122 | one iteration of the item loop appends exactly the item's block, or fails as ItemBlock does |
| Render.AppendChannelLines | rss_scrapper.py:96-107 | appends the six conditional channel lines in their fixed order |
| Render.HeaderLines | rss_scrapper.py:94-107 | the header built line by line is exactly Header |
| Render.AppendBlocks | rss_scrapper.py:108-122 | the item loop appends the blocks of all selected items, or stops with the first item's error |
| Render.RenderText | rss_scrapper.py:94-122 | the text emitter's output is exactly TextLines of the channel and the selected items |
| Render.PresentKeys | rss_scrapper.py:75-90 | the fields kept are exactly the listed fields the record has |
| Render.PresentKeysConcat | rss_scrapper.py:75-90 | the fields kept from two runs of fields are those kept from the first, then those kept from the second, so the fixed field order is kept |
| Render.JsonOutput | rss_scrapper.py:92 | successful JSON output is one string |
| Render.CopyFieldsOk | rss_scrapper.py:75-90 | copying fails exactly when a present field cannot be converted, and then with JoinNonString |
| Render.CopyFieldsContent | rss_scrapper.py:75-90 | the copied dict has one key per present field in list order, holding that field's converted value |
| Render.JsonDataShape | rss_scrapper.py:74-91 | the document's keys are the present channel fields in the fixed order and then `items`; `items` holds exactly the selected item records, and every field except `category` holds the channel's value |
| Render.JsonCategory | rss_scrapper.py:85-86 | `category` holds the channel's category entries concatenated with no separator |
| Render.JsonDataOk | rss_scrapper.py:85-86 | JSON rendering fails exactly when the channel's categories include a None entry; a missing title or link does not make it fail |
| Render.CopyField | rss_scrapper.py:75-84 | one `if key in channel: data[key] = channel[key]` step extends the copied dict by that field |
| Render.CopyCategory | rss_scrapper.py:85-86 | the category step adds the joined categories, or fails with JoinNonString |
| Render.CopyFieldsErrPersists | rss_scrapper.py:85-90 | once copying has failed, further fields do not change the error |
| Render.CopyChannelFields | rss_scrapper.py:74-90 | the eight copy steps build exactly CopyFields of the fixed field list |
| Render.RenderJson | rss_scrapper.py:73-92 | the JSON branch's output is exactly JsonOutput of the channel and the selected items |
| Scrapper.RssOutput | rss_scrapper.py:29-124 | without a channel the parser fails with MissingChannel, and it succeeds only when there is a channel |
| Scrapper.RssParser | rss_scrapper.py:12-124 | the parser's output is exactly RssOutput: extraction, then the branch `json` selects, on the same selection of items |
| Scrapper.TextModeOutput | rss_scrapper.py:94-122 | text mode succeeds exactly when there is a channel with a title and a link and every selected item is renderable; the output then starts with `Feed:` and `Link:` and has header plus block lengths lines |
| Scrapper.JsonModeOutput | rss_scrapper.py:73-92 | JSON mode succeeds exactly when there is a channel whose categories (if any) are strings, without needing a title or link; the output is the one serialised document, whose `items` are the selected records |
| Scrapper.EmptyDescriptionExample | rss_scrapper.py:109-122 | on a channel with a title, a link and one item with a title and an empty description, text mode gives `Feed: News`, `Link: L`, `' '`, `Title: A`, `' '`, None, `' '` |

## Left out

- `main`, the argument parsing and the network fetch with `requests.get` (`rss_scrapper.py:127-150`) are I/O and are not modelled.
- XML parsing with `ElementTree.fromstring` (`rss_scrapper.py:32`) is not modelled. The parser takes the already-parsed element tree, so a malformed document is not an input.
- `find('channel')` and `findall('channel/item')` are modelled for these two paths only. The first is the first `channel` child of the root. The second is the `item` children of every `channel` child, in document order.
- `json.dumps` (`rss_scrapper.py:92`) is the function parameter `serialize`. The model states the ordered dict handed to it, not the JSON text.
- PyStr.Repr, PyStr.ListRepr: they do not model how Python escapes a string, or how it chooses double quotes for one containing a single quote, because `repr` is a formatting rule outside the parser. Entries are wrapped in single quotes as they are, and the contract of ListRepr states only the brackets.
- Python's exception types and messages (`KeyError`, `TypeError`) become the three error kinds of `Model.Error`. The output built before an exception is discarded, as it is in Python.
- `str.strip` uses a fixed set of whitespace code points: those `str.isspace` reports for the ASCII range, and the Unicode space separators and line breaks.
