/**
 * The data the parser works on: an already-parsed XML element tree, the
 * Python values it stores in its records and output list, and the ways it fails.
 */
module Model {
  import opened Wrappers
  import opened Dicts

  /** An XML element: its tag, its text (None when the element has none) and its children in document order. */
  datatype Element = Element(tag: string, text: Option<string>, children: seq<Element>)

  /** The Python values found in a record or in the output list: a `str`, `None`, or a list of `str`/`None`. */
  datatype Value = Str(s: string) | Null | List(entries: seq<Option<string>>)

  /** A channel or item record: a dict from field name to value. */
  type Record = Dict<Value>

  /** The Python value of an element's text. */
  function TextValue(text: Option<string>): (v: Value)
    ensures v.Null? <==> text.None?
    ensures v.Str? ==> text == Some(v.s)
    ensures text.Some? ==> v == Str(text.value)
  {
    match text
    case None => Null
    case Some(s) => Str(s)
  }

  /** Why `rss_parser` raises:
      - MissingChannel: the root has no `channel` child, so the extraction loop iterates over None;
      - MissingKey(k): text rendering reads field `k` of a record that lacks it;
      - JoinNonString: `str.join` meets an entry that is not a string. */
  datatype Error = MissingChannel | MissingKey(key: string) | JoinNonString
}
