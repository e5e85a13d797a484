/**
 * The row actions of the quote editor as transitions from the old list to the
 * new one: each builds a new list and leaves the old one as it was.
 */
module LineItems {
  import opened Quote
  import opened Pricing

  /** A field of a row together with its new value, as `updateItem` receives
      them. */
  datatype Field =
    | Description(text: string)
    | Details(text: string)
    | Quantity(amount: real)
    | UnitPrice(amount: real)
    | Unit(text: string)
    | Type(kind: ItemKind)
    | Id(newId: string)

  /** Fields that do not enter the price of a row. */
  predicate PriceNeutral(f: Field) {
    f.Description? || f.Details? || f.Unit?
  }

  /** `{ ...item, [field]: value }`: the named field takes the new value and
      every other field keeps its old one. */
  function SetField(item: Item, f: Field): (r: Item)
    ensures r.id == if f.Id? then f.newId else item.id
    ensures r.kind == if f.Type? then f.kind else item.kind
    ensures r.description == if f.Description? then f.text else item.description
    ensures r.details == if f.Details? then f.text else item.details
    ensures r.quantity == if f.Quantity? then f.amount else item.quantity
    ensures r.unit == if f.Unit? then f.text else item.unit
    ensures r.unitPrice == if f.UnitPrice? then f.amount else item.unitPrice
    ensures PriceNeutral(f) ==> LineTotal(r) == LineTotal(item)
    ensures f.Quantity? ==> LineTotal(r) == f.amount * EffectiveUnitPrice(item)
  {
    match f
    case Description(t) => item.(description := t)
    case Details(t) => item.(details := t)
    case Quantity(q) => item.(quantity := q)
    case UnitPrice(p) => item.(unitPrice := p)
    case Unit(u) => item.(unit := u)
    case Type(k) => item.(kind := k)
    case Id(i) => item.(id := i)
  }

  lemma SetFieldIdempotent(item: Item, f: Field)
    ensures SetField(SetField(item, f), f) == SetField(item, f)
  {
  }

  /** `updateItem(id, field, value)`: every row with that id gets the field
      replaced; every other row, and the order, stay as they were. */
  function Update(items: seq<Item>, id: string, f: Field): (r: seq<Item>)
    ensures |r| == |items|
    ensures forall i :: 0 <= i < |items| ==>
      r[i] == if items[i].id == id then SetField(items[i], f) else items[i]
  {
    if items == [] then []
    else [if items[0].id == id then SetField(items[0], f) else items[0]] + Update(items[1..], id, f)
  }

  /** With distinct ids, the first row's id occurs nowhere after it. */
  lemma HeadIdNotInTail(items: seq<Item>)
    requires UniqueIds(items) && items != []
    ensures items[0].id !in Ids(items[1..])
  {
    forall x | x in items[1..] ensures x.id != items[0].id {
      var i :| 0 <= i < |items[1..]| && items[1..][i] == x;
      assert items[i + 1] == x;
    }
  }

  /** A row whose id is new can go in front of a list with distinct ids. */
  lemma ConsKeepsUniqueIds(x: Item, rest: seq<Item>)
    requires UniqueIds(rest) && x.id !in Ids(rest)
    ensures UniqueIds([x] + rest)
  {
    var r := [x] + rest;
    forall a, b | 0 <= a < b < |r| ensures r[a].id != r[b].id {
      assert r[b] == rest[b - 1];
      if a > 0 {
        assert r[a] == rest[a - 1];
      }
    }
  }

  /** Repeating an update changes nothing more. */
  lemma UpdateIdempotent(items: seq<Item>, id: string, f: Field)
    ensures Update(Update(items, id, f), id, f) == Update(items, id, f)
  {
    var once := Update(items, id, f);
    forall i | 0 <= i < |items|
      ensures Update(once, id, f)[i] == once[i]
    {
      SetFieldIdempotent(items[i], f);
    }
  }

  /** An update for an id no row has leaves the list as it was. */
  lemma UpdateAbsentId(items: seq<Item>, id: string, f: Field)
    requires id !in Ids(items)
    ensures Update(items, id, f) == items
  {
  }

  lemma {:induction false} UpdateKindSum(items: seq<Item>, id: string, f: Field, k: Kind)
    requires PriceNeutral(f)
    ensures KindSum(Update(items, id, f), k) == KindSum(items, k)
  {
    if items != [] {
      UpdateKindSum(items[1..], id, f, k);
      assert Update(items, id, f)[1..] == Update(items[1..], id, f);
    }
  }

  /** Editing a description, details or unit leaves every total as it was. */
  lemma UpdateKeepsTotals(items: seq<Item>, id: string, f: Field)
    requires PriceNeutral(f)
    ensures TotalServices(Update(items, id, f)) == TotalServices(items)
    ensures TotalMaterials(Update(items, id, f)) == TotalMaterials(items)
    ensures SubTotal(Update(items, id, f)) == SubTotal(items)
  {
    UpdateKindSum(items, id, f, Service);
    UpdateKindSum(items, id, f, Material);
  }

  /** Row `j` is the only row with its id. */
  predicate OnlyAt(items: seq<Item>, j: nat)
    requires j < |items|
  {
    forall i :: 0 <= i < |items| && i != j ==> items[i].id != items[j].id
  }

  lemma {:induction false} UpdateQuantityKindSum(items: seq<Item>, j: nat, q: real)
    requires j < |items| && OnlyAt(items, j)
    ensures KindSum(Update(items, items[j].id, Quantity(q)), items[j].kind)
         == KindSum(items, items[j].kind) - LineTotal(items[j]) + LineTotal(items[j].(quantity := q))
  {
    var id, k := items[j].id, items[j].kind;
    var tail := items[1..];
    if j == 0 {
      assert id !in Ids(tail) by {
        forall x | x in tail ensures x.id != id {
          var i :| 0 <= i < |tail| && tail[i] == x;
          assert items[i + 1] == x;
        }
      }
      UpdateAbsentId(tail, id, Quantity(q));
      assert Update(items, id, Quantity(q)) == [items[0].(quantity := q)] + tail;
    } else {
      var i0 := j - 1;
      assert tail[i0] == items[j];
      assert OnlyAt(tail, i0) by {
        forall i | 0 <= i < |tail| && i != i0 ensures tail[i].id != id {
          assert tail[i] == items[i + 1];
        }
      }
      UpdateQuantityKindSum(tail, i0, q);
      var rest := Update(tail, id, Quantity(q));
      assert Update(items, id, Quantity(q)) == [items[0]] + rest;
      assert ([items[0]] + rest)[1..] == rest;
    }
  }

  /** A new quantity changes a row total by the change in quantity times the
      effective unit price. */
  lemma QuantityDelta(item: Item, q: real)
    ensures LineTotal(item.(quantity := q)) - LineTotal(item) == (q - item.quantity) * EffectiveUnitPrice(item)
  {
  }

  /** A new quantity on rows none of which has type `k` leaves the total of
      type `k` as it was. */
  lemma {:induction false} UpdateQuantityOtherKindSum(items: seq<Item>, id: string, q: real, k: Kind)
    requires forall i :: 0 <= i < |items| && items[i].id == id ==> items[i].kind != k
    ensures KindSum(Update(items, id, Quantity(q)), k) == KindSum(items, k)
  {
    if items != [] {
      assert forall i :: 0 <= i < |items[1..]| ==> items[1..][i] == items[i + 1];
      UpdateQuantityOtherKindSum(items[1..], id, q, k);
      assert Update(items, id, Quantity(q))[1..] == Update(items[1..], id, Quantity(q));
    }
  }

  /** With distinct ids, changing the quantity of one row changes only the
      total of its own section: that row's old total leaves it and its new
      total enters it, and every other section keeps its total. */
  lemma UpdateQuantityChangesSection(items: seq<Item>, j: nat, q: real)
    requires UniqueIds(items) && j < |items|
    ensures TotalOf(Update(items, items[j].id, Quantity(q)), items[j].kind)
         == TotalOf(items, items[j].kind) - LineTotal(items[j]) + LineTotal(items[j].(quantity := q))
    ensures forall k :: k != items[j].kind ==>
      TotalOf(Update(items, items[j].id, Quantity(q)), k) == TotalOf(items, k)
  {
    var item, k := items[j], items[j].kind;
    var after := Update(items, item.id, Quantity(q));
    assert OnlyAt(items, j) by {
      forall i | 0 <= i < |items| && i != j ensures items[i].id != item.id {
        if i < j {} else {}
      }
    }
    UpdateQuantityKindSum(items, j, q);
    forall k' | k' != k ensures TotalOf(after, k') == TotalOf(items, k') {
      UpdateQuantityOtherKindSum(items, item.id, q, k');
    }
  }

  /** An update of any field but the id keeps the ids distinct. */
  lemma UpdateKeepsUniqueIds(items: seq<Item>, id: string, f: Field)
    requires UniqueIds(items) && !f.Id?
    ensures UniqueIds(Update(items, id, f))
  {
  }

  /** `removeItem(id)`: the rows whose id differs, in their order. */
  function Remove(items: seq<Item>, id: string): (r: seq<Item>)
    ensures IsSubsequence(r, items)
    ensures forall x :: x in r <==> x in items && x.id != id
    ensures forall x :: multiset(r)[x] == if x.id != id then multiset(items)[x] else 0
    ensures |r| <= |items|
  {
    assert items != [] ==> items == [items[0]] + items[1..];
    if items == [] then []
    else if items[0].id != id then [items[0]] + Remove(items[1..], id)
    else Remove(items[1..], id)
  }

  lemma {:induction false} RemoveAbsentId(items: seq<Item>, id: string)
    requires id !in Ids(items)
    ensures Remove(items, id) == items
  {
    if items != [] {
      assert items[0] in items;
      assert Ids(items[1..]) <= Ids(items);
      RemoveAbsentId(items[1..], id);
    }
  }

  lemma {:induction false} RemoveKindSum(items: seq<Item>, j: nat, k: Kind)
    requires UniqueIds(items) && j < |items|
    ensures |Remove(items, items[j].id)| == |items| - 1
    ensures KindSum(Remove(items, items[j].id), k)
         == KindSum(items, k) - (if items[j].kind == k then LineTotal(items[j]) else 0.0)
  {
    var id := items[j].id;
    if j == 0 {
      HeadIdNotInTail(items);
      RemoveAbsentId(items[1..], id);
    } else {
      assert items[1..][j - 1] == items[j];
      assert UniqueIds(items[1..]);
      RemoveKindSum(items[1..], j - 1, k);
      assert ([items[0]] + Remove(items[1..], id))[1..] == Remove(items[1..], id);
    }
  }

  /** With distinct ids, removing a row takes exactly that row out of the
      list and its total out of its section and the subtotal. */
  lemma RemoveDropsLineTotal(items: seq<Item>, j: nat)
    requires UniqueIds(items) && j < |items|
    ensures |Remove(items, items[j].id)| == |items| - 1
    ensures SubTotal(Remove(items, items[j].id))
         == SubTotal(items) - (if items[j].kind.Other? then 0.0 else LineTotal(items[j]))
  {
    RemoveKindSum(items, j, Service);
    RemoveKindSum(items, j, Material);
  }

  /** Removing rows keeps the remaining ids distinct. */
  lemma {:induction false} RemoveKeepsUniqueIds(items: seq<Item>, id: string)
    requires UniqueIds(items)
    ensures UniqueIds(Remove(items, id))
  {
    if items != [] {
      assert UniqueIds(items[1..]);
      RemoveKeepsUniqueIds(items[1..], id);
      if items[0].id != id {
        HeadIdNotInTail(items);
        var rest := Remove(items[1..], id);
        assert Ids(rest) <= Ids(items[1..]);
        ConsKeepsUniqueIds(items[0], rest);
      }
    }
  }

  /** The row `addFromCatalog` builds: a copy of the entry with the new id,
      quantity 1 and empty details. */
  function FromCatalog(entry: Item, id: string): (x: Item)
    ensures x.id == id && x.quantity == 1.0 && x.details == ""
    ensures x.kind == entry.kind && x.description == entry.description
    ensures x.unit == entry.unit && x.unitPrice == entry.unitPrice
  {
    entry.(id := id, details := "", quantity := 1.0)
  }

  /** `addFromCatalog(entry)`: one row appended, the earlier rows untouched. */
  function AddFromCatalog(items: seq<Item>, entry: Item, id: string): (r: seq<Item>)
    ensures |r| == |items| + 1 && r[..|items|] == items
    ensures r[|items|] == FromCatalog(entry, id)
  {
    items + [FromCatalog(entry, id)]
  }

  /** With a fresh id the ids stay distinct, and the subtotal grows by one
      unit of the entry at its effective price (nothing for a type that is
      neither service nor material). */
  lemma AddFromCatalogFresh(items: seq<Item>, entry: Item, id: string)
    requires UniqueIds(items) && id !in Ids(items)
    ensures UniqueIds(AddFromCatalog(items, entry, id))
    ensures Ids(AddFromCatalog(items, entry, id)) == Ids(items) + {id}
    ensures SubTotal(AddFromCatalog(items, entry, id))
         == SubTotal(items) + (if entry.kind.Other? then 0.0 else EffectiveUnitPrice(entry))
  {
    var r := AddFromCatalog(items, entry, id);
    forall a, b | 0 <= a < b < |r| ensures r[a].id != r[b].id {
      if b == |items| {
        assert r[a] == items[a];
        assert items[a] in items;
      } else {
        assert r[a] == items[a] && r[b] == items[b];
      }
    }
    assert forall x :: x in r <==> x in items || x == FromCatalog(entry, id);
    TotalsAfterAppend(items, FromCatalog(entry, id));
  }

  /** `addItem` refuses a form with an empty description or a zero price;
      in particular it refuses the blank form. */
  function Accepts(draft: Draft): (ok: bool)
    ensures ok <==> draft.description != "" && draft.unitPrice != 0.0
    ensures draft == BlankDraft ==> !ok
  {
    !(draft.description == "" || draft.unitPrice == 0.0)
  }

  /** The row `addItem` builds from the form: type defaults to service and
      unit to `'un'`; details start empty. */
  function FromDraft(draft: Draft, id: string): (x: Item)
    ensures x.id == id && x.details == ""
    ensures x.description == draft.description
    ensures x.quantity == draft.quantity && x.unitPrice == draft.unitPrice
    ensures x.unit != ""
    ensures draft.unit != "" ==> x.unit == draft.unit
    ensures draft.unit == "" ==> x.unit == "un"
    ensures draft.kind.None? || draft.kind.value == Other("") ==> x.kind == Service
    ensures draft.kind.Some? && draft.kind.value != Other("") ==> x.kind == draft.kind.value
  {
    Item(
      id,
      if draft.kind.None? || draft.kind.value == Other("") then Service else draft.kind.value,
      draft.description,
      "",
      draft.quantity,
      if draft.unit == "" then "un" else draft.unit,
      draft.unitPrice)
  }

  /** `addItem`: the list is unchanged when the form is refused, and gains one
      row at the end otherwise. */
  function AddItem(items: seq<Item>, draft: Draft, id: string): (r: seq<Item>)
    ensures |r| == |items| + (if Accepts(draft) then 1 else 0)
    ensures r[..|items|] == items
    ensures Accepts(draft) ==> r[|items|] == FromDraft(draft, id)
  {
    if Accepts(draft) then items + [FromDraft(draft, id)] else items
  }

  /** An accepted form with a fresh id keeps the ids distinct and adds its
      row total to the subtotal; a refused form changes no total. */
  lemma AddItemTotals(items: seq<Item>, draft: Draft, id: string)
    requires UniqueIds(items) && id !in Ids(items)
    ensures UniqueIds(AddItem(items, draft, id))
    ensures SubTotal(AddItem(items, draft, id))
         == SubTotal(items) + (if Accepts(draft) && !FromDraft(draft, id).kind.Other?
                               then LineTotal(FromDraft(draft, id)) else 0.0)
  {
    if Accepts(draft) {
      var r := AddItem(items, draft, id);
      forall a, b | 0 <= a < b < |r| ensures r[a].id != r[b].id {
        if b == |items| {
          assert r[a] == items[a];
          assert items[a] in items;
        } else {
          assert r[a] == items[a] && r[b] == items[b];
        }
      }
      TotalsAfterAppend(items, FromDraft(draft, id));
    }
  }
}
