/**
 * The entities of a roofing quote: line items, their type, the "new item"
 * form and the photo attachments.
 */
module Quote {

  datatype Option<T> = None | Some(value: T)

  /** The `type` field of a line item. The form and the fallback catalog only
      produce `'service'` and `'material'`; a remote record may carry any
      lower-cased string, kept as `Other`. */
  datatype Kind = Service | Material | Other(name: string)

  /** The string stored in the `type` field. For a well-formed kind the
      string is `'service'` exactly for a service and `'material'` exactly for
      a material. */
  function KindName(k: Kind): (s: string)
    ensures WellFormedKind(k) ==> (s == "service" <==> k == Service)
    ensures WellFormedKind(k) ==> (s == "material" <==> k == Material)
  {
    match k
    case Service => "service"
    case Material => "material"
    case Other(name) => name
  }

  /** Reads a `type` string back as a kind. */
  function KindOf(name: string): (k: ItemKind)
    ensures KindName(k) == name
  {
    if name == "service" then Service
    else if name == "material" then Material
    else Other(name)
  }

  /** `Other` never spells one of the two named kinds, so that a kind and its
      string determine each other. */
  predicate WellFormedKind(k: Kind) {
    k.Other? ==> k.name != "service" && k.name != "material"
  }

  /** The kinds a row can carry: the type string `'material'` is always
      `Material` and `'service'` always `Service`, so a row is priced and
      summed by its type string. */
  type ItemKind = k: Kind | WellFormedKind(k) witness Service

  lemma KindNameRoundTrip(k: Kind)
    requires WellFormedKind(k)
    ensures KindOf(KindName(k)) == k
  {
  }

  /** One row of the quote. An absent `details` is the empty string: the
      source only ever reads it as `details || ''`. */
  datatype Item = Item(
    id: string,
    kind: ItemKind,
    description: string,
    details: string,
    quantity: real,
    unit: string,
    unitPrice: real)

  /** The "new item" form. A `None` kind stands for a form whose type was
      never set. */
  datatype Draft = Draft(
    kind: Option<ItemKind>,
    description: string,
    quantity: real,
    unit: string,
    unitPrice: real)

  /** What the form holds on mount and after every successful add. */
  const BlankDraft := Draft(Some(Service), "", 1.0, "un", 0.0)

  /** The rows the quote screen starts with. */
  const InitialItems := [
    Item("1", Service, "Revisão de calhas", "", 1.0, "un", 350.0),
    Item("2", Material, "Telha TP40", "", 10.0, "m", 45.0)
  ]

  /** A photo attached to the proposal's appendix. */
  datatype Photo = Photo(id: string, url: string, caption: string)

  /** The ids in a list of items. */
  function Ids(items: seq<Item>): (ids: set<string>)
    ensures forall x :: x in items ==> x.id in ids
    ensures forall id :: id in ids ==> exists x :: x in items && x.id == id
  {
    set x | x in items :: x.id
  }

  /** No two rows of the list share an id. */
  predicate UniqueIds(items: seq<Item>) {
    forall i, j :: 0 <= i < j < |items| ==> items[i].id != items[j].id
  }

  /** `r` is `s` with some elements dropped and the rest in their order. */
  ghost predicate IsSubsequence<T>(r: seq<T>, s: seq<T>)
    decreases |s|
  {
    r == [] ||
    (s != [] &&
     ((r[0] == s[0] && IsSubsequence(r[1..], s[1..])) || IsSubsequence(r, s[1..])))
  }
}
