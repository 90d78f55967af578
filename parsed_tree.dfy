/**
 * The part of the tree that xml2js builds from an ED807 BIC directory that
 * the flattening step looks at.
 *
 * xml2js turns every element into an object whose attributes sit in a `$`
 * object and whose children are grouped by tag name.  An element without
 * attributes has no `$` (and an element holding only text is reduced to a
 * string), so reading `x.$.Name` on it throws; `attrs == None` stands for
 * all of those shapes.
 */
module ParsedTree {
  import opened Wrappers

  /** The `$` object: attribute name to attribute value. */
  type Attributes = map<string, string>

  /** A child element, as far as the flattening reads it: only its `$`. */
  datatype Element = Element(attrs: Option<Attributes>)

  /**
   * The value stored under a child tag name.  `Absent` is `undefined` or any
   * other falsy value; `Single` is a bare element that is not an array;
   * `Many` is an array of elements (what xml2js gives with `explicitArray`).
   */
  datatype Field = Absent | Single(element: Element) | Many(elements: seq<Element>)

  /** One `BICDirectoryEntry`: its `$`, its `ParticipantInfo` and its `Accounts`. */
  datatype Entry = Entry(attrs: Option<Attributes>, participantInfo: Field, accounts: Field)

  /** The value of `ED807.BICDirectoryEntry`: an array of entries or anything else. */
  datatype EntrySlot = NotAnArray | EntryArray(entries: seq<Entry>)

  /** The `ED807` root element. */
  datatype Root = Root(bicDirectoryEntry: EntrySlot)

  /** The parsed document; `ed807 == None` when it has no `ED807` property. */
  datatype Document = Document(ed807: Option<Root>)

  /** Reading `attrs[name]`, which is `undefined` for a missing attribute. */
  function Attribute(attrs: Attributes, name: string): Option<string>
  {
    if name in attrs then Some(attrs[name]) else None
  }
}
