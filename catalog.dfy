/**
 * The catalog side of the quote screen: the case-insensitive search over the
 * catalog and the coercion of the records a remote list returns into
 * catalog entries.
 */
module Catalog {
  import opened Text
  import opened Quote

  /** An entry is shown when its lower-cased description contains the
      lower-cased search term. */
  predicate Matches(entry: Item, term: string) {
    Includes(Lower(entry.description), Lower(term))
  }

  /** `catalogItems.filter(...)`: the entries that match, in catalog order. */
  function Search(catalog: seq<Item>, term: string): (r: seq<Item>)
    ensures IsSubsequence(r, catalog)
    ensures forall x :: x in r <==> x in catalog && Matches(x, term)
    ensures forall x :: multiset(r)[x] == if Matches(x, term) then multiset(catalog)[x] else 0
  {
    assert catalog != [] ==> catalog == [catalog[0]] + catalog[1..];
    if catalog == [] then []
    else if Matches(catalog[0], term) then [catalog[0]] + Search(catalog[1..], term)
    else Search(catalog[1..], term)
  }

  /** An empty search box shows the whole catalog. */
  lemma {:induction false} EmptySearchShowsAll(catalog: seq<Item>)
    ensures Search(catalog, "") == catalog
  {
    if catalog != [] {
      IncludesEmpty(Lower(catalog[0].description));
      EmptySearchShowsAll(catalog[1..]);
    }
  }

  /** Two terms that differ only in case select the same entries. */
  lemma {:induction false} SearchIgnoresCase(catalog: seq<Item>, term1: string, term2: string)
    requires Lower(term1) == Lower(term2)
    ensures Search(catalog, term1) == Search(catalog, term2)
  {
    if catalog != [] {
      SearchIgnoresCase(catalog[1..], term1, term2);
    }
  }

  /** The `Item` column of a remote record: a choice object whose `Value` may
      be missing, a plain string, or `Missing` for everything else (an absent
      column, `null`, a number). */
  datatype ItemColumn = Missing | Plain(text: string) | Choice(value: Option<string>)

  /** One raw record of the remote list. `id` is `String(ID)`; `price` is
      `Number(Preco)` with `None` where that is not a number. */
  datatype RawRecord = RawRecord(
    id: string,
    item: ItemColumn,
    title: Option<string>,
    unidade: Option<string>,
    price: Option<real>)

  /** The lower-cased type string: a non-empty choice value, else a plain
      string (even an empty one), else `'service'`. */
  function TypeName(column: ItemColumn): (name: string)
    ensures IsLower(name)
    ensures column.Choice? && column.value.Some? && column.value.value != "" ==> name == Lower(column.value.value)
    ensures column.Choice? && (column.value.None? || column.value.value == "") ==> name == "service"
    ensures column.Plain? ==> name == Lower(column.text)
    ensures column.Missing? ==> name == "service"
  {
    match column
    case Choice(Some(v)) => if v != "" then Lower(v) else "service"
    case Plain(s) => Lower(s)
    case _ => "service"
  }

  /** JavaScript's `x || fallback` on an optional string. */
  function OrElse(x: Option<string>, fallback: string): (r: string)
    ensures fallback != "" ==> r != ""
    ensures x.Some? && x.value != "" ==> r == x.value
    ensures x.None? || x.value == "" ==> r == fallback
  {
    if x.Some? && x.value != "" then x.value else fallback
  }

  /** The entry built from one remote record: it always has a description,
      a unit and a lower-cased type, quantity 1 and empty details. */
  function Coerce(raw: RawRecord): (e: Item)
    ensures e.id == raw.id
    ensures e.description != "" && e.unit != ""
    ensures e.quantity == 1.0 && e.details == ""
    ensures KindName(e.kind) == TypeName(raw.item) && IsLower(KindName(e.kind))
    ensures e.description == OrElse(raw.title, "Item sem descrição")
    ensures e.unit == OrElse(raw.unidade, "un")
    ensures raw.price.Some? ==> e.unitPrice == raw.price.value
    ensures raw.item.Missing? ==> e.kind == Service
    ensures raw.title.None? ==> e.description == "Item sem descrição"
    ensures raw.unidade.None? ==> e.unit == "un"
    ensures raw.price.None? || raw.price == Some(0.0) <==> e.unitPrice == 0.0
  {
    Item(
      raw.id,
      KindOf(TypeName(raw.item)),
      OrElse(raw.title, "Item sem descrição"),
      "",
      1.0,
      OrElse(raw.unidade, "un"),
      if raw.price.Some? then raw.price.value else 0.0)
  }

  /** `data.value.map(...)` when the body carries a `value` list, else the
      empty catalog. */
  function FromResponse(body: Option<seq<RawRecord>>): (catalog: seq<Item>)
    ensures body.None? ==> catalog == []
    ensures body.Some? ==> |catalog| == |body.value|
    ensures body.Some? ==> forall i :: 0 <= i < |catalog| ==> catalog[i] == Coerce(body.value[i])
  {
    match body
    case None => []
    case Some(records) => seq(|records|, i requires 0 <= i < |records| => Coerce(records[i]))
  }

  /** A remote type is read case-insensitively: `'Material'` and `'MATERIAL'`
      price as a material, and a missing column as a service. */
  lemma RemoteTypeExamples(id: string)
    ensures Coerce(RawRecord(id, Plain("Material"), None, None, None)).kind == Material
    ensures Coerce(RawRecord(id, Choice(Some("MATERIAL")), None, None, None)).kind == Material
    ensures Coerce(RawRecord(id, Choice(Some("")), None, None, None)).kind == Service
    ensures Coerce(RawRecord(id, Plain(""), None, None, None)).kind == Other("")
  {
    assert Lower("Material") == "material";
    assert Lower("MATERIAL") == "material";
    assert Lower("") == "";
  }
}
