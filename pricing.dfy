/**
 * The pricing engine: per-row prices and totals, the section totals of the
 * quote, the discounted total and the total block printed on the proposal.
 * Every value is recomputed from the item list and the discount; nothing is
 * cached. Prices are exact reals.
 */
module Pricing {
  import opened Quote

  /** The fixed markup applied to materials. */
  const MaterialMarkup: real := 1.5

  /** `getEffectiveUnitPrice`: materials are sold at a 50% markup, every other
      type at its own unit price. */
  function EffectiveUnitPrice(item: Item): (p: real)
    ensures p != item.unitPrice ==> item.kind == Material
    ensures item.unitPrice >= 0.0 ==> item.unitPrice <= p <= item.unitPrice * MaterialMarkup
  {
    if item.kind == Material then item.unitPrice * MaterialMarkup else item.unitPrice
  }

  /** The markup is applied exactly when the type is `'material'`. */
  lemma MarkupExactlyOnMaterials(item: Item)
    requires item.unitPrice != 0.0
    ensures EffectiveUnitPrice(item) == item.unitPrice * 1.5 <==> item.kind == Material
    ensures EffectiveUnitPrice(item) == item.unitPrice <==> item.kind != Material
  {
  }

  /** `calculateTotal`: quantity times the effective unit price. */
  function LineTotal(item: Item): (t: real)
    ensures item.quantity == 0.0 || item.unitPrice == 0.0 ==> t == 0.0
    ensures item.quantity >= 0.0 && item.unitPrice >= 0.0 ==> t >= item.quantity * item.unitPrice
  {
    item.quantity * EffectiveUnitPrice(item)
  }

  /** `items.filter(i => i.type === k)`. */
  function OfKind(items: seq<Item>, k: Kind): (r: seq<Item>)
    ensures IsSubsequence(r, items)
    ensures forall x :: x in r <==> x in items && x.kind == k
    ensures forall x :: multiset(r)[x] == if x.kind == k then multiset(items)[x] else 0
  {
    assert items != [] ==> items == [items[0]] + items[1..];
    if items == [] then []
    else if items[0].kind == k then [items[0]] + OfKind(items[1..], k)
    else OfKind(items[1..], k)
  }

  /** `xs.reduce((acc, curr) => acc + calculateTotal(curr), acc)`: a left
      fold, which comes to the accumulator plus the plain sum of the row
      totals. */
  function Reduce(xs: seq<Item>, acc: real): (r: real)
    ensures r == acc + SumLines(xs)
  {
    if xs == [] then acc else Reduce(xs[1..], acc + LineTotal(xs[0]))
  }

  /** Filter by type, then fold the row totals from 0: the sum of the row
      totals of the rows of type `k`. */
  function TotalOf(items: seq<Item>, k: Kind): (t: real)
    ensures t == KindSum(items, k)
  {
    OfKindSum(items, k);
    Reduce(OfKind(items, k), 0.0)
  }

  function TotalServices(items: seq<Item>): (t: real)
    ensures t == KindSum(items, Service)
  {
    TotalOf(items, Service)
  }

  function TotalMaterials(items: seq<Item>): (t: real)
    ensures t == KindSum(items, Material)
  {
    TotalOf(items, Material)
  }

  /** Services plus materials: every row total except those of rows of any
      other type. */
  function SubTotal(items: seq<Item>): (t: real)
    ensures t == SumLines(items) - OtherSum(items)
  {
    SumLinesByKind(items);
    TotalServices(items) + TotalMaterials(items)
  }

  /** The flat discount is subtracted once and the result is not clamped. */
  function FinalTotal(items: seq<Item>, discount: real): (r: real)
    ensures r < 0.0 <==> discount > SubTotal(items)
    ensures r <= SubTotal(items) <==> discount >= 0.0
  {
    SubTotal(items) - discount
  }

  // Reference definitions: plain sums over the whole list.

  /** The sum of every row total. */
  function SumLines(xs: seq<Item>): (sum: real) {
    if xs == [] then 0.0 else LineTotal(xs[0]) + SumLines(xs[1..])
  }

  /** The sum of the row totals of the rows of type `k`. */
  function KindSum(items: seq<Item>, k: Kind): (sum: real) {
    if items == [] then 0.0
    else (if items[0].kind == k then LineTotal(items[0]) else 0.0) + KindSum(items[1..], k)
  }

  /** The sum of the row totals of the rows whose type is neither service
      nor material. */
  function OtherSum(items: seq<Item>): (sum: real) {
    if items == [] then 0.0
    else (if items[0].kind.Other? then LineTotal(items[0]) else 0.0) + OtherSum(items[1..])
  }

  lemma {:induction false} OfKindSum(items: seq<Item>, k: Kind)
    ensures SumLines(OfKind(items, k)) == KindSum(items, k)
  {
    if items != [] {
      OfKindSum(items[1..], k);
      if items[0].kind == k {
        assert ([items[0]] + OfKind(items[1..], k))[1..] == OfKind(items[1..], k);
      }
    }
  }

  lemma {:induction false} SumLinesByKind(items: seq<Item>)
    ensures SumLines(items) == KindSum(items, Service) + KindSum(items, Material) + OtherSum(items)
  {
    if items != [] {
      SumLinesByKind(items[1..]);
    }
  }

  lemma {:induction false} OtherSumWithoutOthers(items: seq<Item>)
    requires forall i :: 0 <= i < |items| ==> !items[i].kind.Other?
    ensures OtherSum(items) == 0.0
  {
    if items != [] {
      OtherSumWithoutOthers(items[1..]);
    }
  }

  /** When every row is a service or a material, the subtotal is the sum of
      every row total. */
  lemma SubTotalLeavesOutOtherKinds(items: seq<Item>)
    ensures (forall i :: 0 <= i < |items| ==> !items[i].kind.Other?) ==> SubTotal(items) == SumLines(items)
  {
    if forall i :: 0 <= i < |items| ==> !items[i].kind.Other? {
      OtherSumWithoutOthers(items);
    }
  }

  lemma {:induction false} KindSumAppend(items: seq<Item>, x: Item, k: Kind)
    ensures KindSum(items + [x], k) == KindSum(items, k) + (if x.kind == k then LineTotal(x) else 0.0)
  {
    if items == [] {
      assert items + [x] == [x];
    } else {
      assert (items + [x])[1..] == items[1..] + [x];
      KindSumAppend(items[1..], x, k);
    }
  }

  /** Appending a row adds its total to its own section and to the subtotal,
      unless its type is neither service nor material. */
  lemma TotalsAfterAppend(items: seq<Item>, x: Item)
    ensures TotalServices(items + [x]) == TotalServices(items) + (if x.kind == Service then LineTotal(x) else 0.0)
    ensures TotalMaterials(items + [x]) == TotalMaterials(items) + (if x.kind == Material then LineTotal(x) else 0.0)
    ensures SubTotal(items + [x]) == SubTotal(items) + (if x.kind.Other? then 0.0 else LineTotal(x))
  {
    KindSumAppend(items, x, Service);
    KindSumAppend(items, x, Material);
  }

  /** Ten units of a material at 45 cost 675; one service at 350 costs 350;
      with a discount of 50 the quote totals 975. */
  lemma InitialQuoteTotals()
    ensures LineTotal(InitialItems[1]) == 675.0
    ensures TotalServices(InitialItems) == 350.0
    ensures TotalMaterials(InitialItems) == 675.0
    ensures SubTotal(InitialItems) == 1025.0
    ensures FinalTotal(InitialItems, 50.0) == 975.0
  {
    assert InitialItems[1..][1..] == [];
  }

  /** The total block printed at the end of the proposal. */
  datatype Summary =
    | DiscountSummary(subTotal: real, discount: real, total: real)
    | KindSummary(services: real, materials: real, total: real)

  /** With a positive discount the proposal prints subtotal, discount and the
      discounted total; otherwise it prints the two section totals and the
      subtotal, so a zero or negative discount never reaches the printed
      "Total Geral". */
  function PrintedSummary(items: seq<Item>, discount: real): (s: Summary)
    ensures s.DiscountSummary? <==> discount > 0.0
    ensures s.DiscountSummary? ==> s.subTotal == SubTotal(items) && s.discount == discount
                                   && s.total == s.subTotal - s.discount
    ensures s.KindSummary? ==> s.services == TotalServices(items) && s.materials == TotalMaterials(items)
    ensures s.KindSummary? ==> s.total == s.services + s.materials == SubTotal(items)
    ensures s.total == FinalTotal(items, discount) <==> discount >= 0.0
    ensures s.total == SubTotal(items) <==> discount <= 0.0
    ensures s.total <= SubTotal(items)
  {
    if discount > 0.0 then
      DiscountSummary(SubTotal(items), discount, FinalTotal(items, discount))
    else
      KindSummary(TotalServices(items), TotalMaterials(items), SubTotal(items))
  }
}
