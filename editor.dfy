/**
 * The component state of the quote screen that the editor's actions change:
 * the rows, the "new item" form, the discount and the photo attachments.
 * Every action replaces a whole value, as a state setter does.
 */
module Editor {
  import opened Quote
  import Pricing
  import LineItems
  import Photos

  class QuoteEditor {
    var items: seq<Item>
    var newItem: Draft
    var discount: real
    var photos: seq<Photo>

    /** The screen starts with two sample rows, a blank form, no discount and
        no photos. */
    constructor ()
      ensures items == InitialItems && UniqueIds(items)
      ensures newItem == BlankDraft && discount == 0.0 && photos == []
    {
      items := InitialItems;
      newItem := BlankDraft;
      discount := 0.0;
      photos := [];
    }

    /** `updateItem(id, field, value)`. */
    method UpdateItem(id: string, f: LineItems.Field)
      modifies this
      ensures items == LineItems.Update(old(items), id, f)
      ensures !f.Id? && UniqueIds(old(items)) ==> UniqueIds(items)
      ensures newItem == old(newItem) && discount == old(discount) && photos == old(photos)
    {
      if !f.Id? && UniqueIds(items) {
        LineItems.UpdateKeepsUniqueIds(items, id, f);
      }
      items := LineItems.Update(items, id, f);
    }

    /** `addItem()`, with `id` standing for the freshly drawn id. A refused
        form changes nothing; an accepted one adds its row and blanks the
        form. */
    method AddItem(id: string)
      modifies this
      ensures items == LineItems.AddItem(old(items), old(newItem), id)
      ensures newItem == if LineItems.Accepts(old(newItem)) then BlankDraft else old(newItem)
      ensures UniqueIds(old(items)) && id !in Ids(old(items)) ==> UniqueIds(items)
      ensures discount == old(discount) && photos == old(photos)
    {
      if UniqueIds(items) && id !in Ids(items) {
        LineItems.AddItemTotals(items, newItem, id);
      }
      if LineItems.Accepts(newItem) {
        items := LineItems.AddItem(items, newItem, id);
        newItem := BlankDraft;
      }
    }

    /** `addFromCatalog(entry)`, with `id` standing for the freshly drawn id. */
    method AddFromCatalog(entry: Item, id: string)
      modifies this
      ensures items == LineItems.AddFromCatalog(old(items), entry, id)
      ensures UniqueIds(old(items)) && id !in Ids(old(items)) ==> UniqueIds(items)
      ensures newItem == old(newItem) && discount == old(discount) && photos == old(photos)
    {
      if UniqueIds(items) && id !in Ids(items) {
        LineItems.AddFromCatalogFresh(items, entry, id);
      }
      items := LineItems.AddFromCatalog(items, entry, id);
    }

    /** `removeItem(id)`. */
    method RemoveItem(id: string)
      modifies this
      ensures items == LineItems.Remove(old(items), id)
      ensures id !in Ids(items)
      ensures UniqueIds(old(items)) ==> UniqueIds(items)
      ensures newItem == old(newItem) && discount == old(discount) && photos == old(photos)
    {
      if UniqueIds(items) {
        LineItems.RemoveKeepsUniqueIds(items, id);
      }
      items := LineItems.Remove(items, id);
    }

    /** The discount field: any number is taken as it is. */
    method SetDiscount(d: real)
      modifies this
      ensures discount == d
      ensures items == old(items) && newItem == old(newItem) && photos == old(photos)
    {
      discount := d;
    }

    /** `updatePhotoCaption(id, text)`. */
    method UpdatePhotoCaption(id: string, text: string)
      modifies this
      ensures photos == Photos.Recaption(old(photos), id, text)
      ensures items == old(items) && newItem == old(newItem) && discount == old(discount)
    {
      photos := Photos.Recaption(photos, id, text);
    }

    /** `removePhoto(id)`. */
    method RemovePhoto(id: string)
      modifies this
      ensures photos == Photos.RemovePhoto(old(photos), id)
      ensures items == old(items) && newItem == old(newItem) && discount == old(discount)
    {
      photos := Photos.RemovePhoto(photos, id);
    }

    /** The total block the proposal prints for the current state. */
    function Printed(): (s: Pricing.Summary)
      reads this
      ensures s.DiscountSummary? <==> discount > 0.0
      ensures s.DiscountSummary? ==> s.subTotal == Pricing.SubTotal(items) && s.discount == discount
      ensures s.total <= Pricing.SubTotal(items)
      ensures s.total == Pricing.FinalTotal(items, discount) <==> discount >= 0.0
      ensures s.total == Pricing.SubTotal(items) <==> discount <= 0.0
      ensures s.KindSummary? ==> s.services == Pricing.TotalServices(items)
                                 && s.materials == Pricing.TotalMaterials(items)
    {
      Pricing.PrintedSummary(items, discount)
    }
  }

  /** A session on the initial rows: the printed total is the subtotal until
      a positive discount is entered, and then the discounted total; a
      negative discount prints the subtotal again. */
  method InitialSession() returns (plain: real, discounted: real, negative: real)
    ensures plain == 1025.0 && discounted == 975.0 && negative == 1025.0
  {
    var editor := new QuoteEditor();
    Pricing.InitialQuoteTotals();
    plain := editor.Printed().total;
    editor.SetDiscount(50.0);
    discounted := editor.Printed().total;
    editor.SetDiscount(-20.0);
    negative := editor.Printed().total;
  }
}
