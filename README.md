# Roofing quote builder: pricing and line-item model

A Dafny model of the logic inside the single-page quote/proposal builder
(`src/App.tsx`). The builder is a form for a quote ("orçamento"). The user adds
rows (services and materials) by hand or from a catalog, edits them, removes
them, enters a flat discount and prints a proposal.

What is modelled, module by module:

- `Text`: lower-casing (`toLowerCase`) and substring search (`includes`).
  Substring search is proved against its definition: "the term occurs at some
  position".
- `Quote`: the entities. These are a line item (`Item`), its type (`Kind`:
  `Service`, `Material`, or any `Other` string a remote record may carry), the
  new-item form (`Draft`) and a photo attachment. A row's type is an
  `ItemKind`, a kind whose `Other` string is never `'service'` or
  `'material'`, so a row is priced and summed by its type string alone.
- `Pricing`: the pricing engine. Materials get a fixed ×1.5 markup. A row
  total is quantity × effective unit price. The service and material totals
  are filter-then-fold over the rows. The subtotal is their sum, and the final
  total is subtotal − discount with no floor. Also modelled: the total block
  printed on the proposal. It shows the discounted total only when the
  discount is positive, and the subtotal otherwise. The literal
  filter-then-fold is proved equal to a plain sum over the rows of one type.
  From that the model derives what each action does to the totals.
- `Catalog`: the case-insensitive catalog search, and the coercion of the
  records of the remote list into catalog entries. The coercion supplies
  defaults for a missing title, unit, price or type.
- `LineItems`: the row actions as old-list → new-list transitions. These
  are update a field, add from the form, add from the catalog and remove.
  Each states what it keeps unchanged, and each has lemmas about the totals
  and about keeping row ids distinct when the new id is fresh.
- `Photos`: the two photo actions, edit a caption and remove a photo, as
  old-list → new-list transitions.
- `Editor`: the component state (`items`, `newItem`, `discount`, `photos`) as
  a class. Each action method assigns the new value computed by `LineItems`
  or `Photos`.

Abstractions and choices:

- Quantities, prices and the discount are exact `real`s. JavaScript doubles,
  their rounding and `NaN` are not modelled.
- Ids from `Math.random` are parameters. That an id is fresh is a hypothesis
  of the lemmas that need it, not a guarantee.
- The optional `details` field is a string, and absent is the empty string.
  The source only reads it as `details || ''` or by truthiness.
- The type of a remote record (`src/App.tsx:154`) is the lower-cased
  `Value` of a choice object when that value is non-empty, else the
  lower-cased string when the column is a string (an empty string stays
  `''`), else `'service'`. So a choice object with an empty or missing
  `Value`, a missing column, and any other non-string value (`null`, a
  number) all become `'service'`, while any other type string is kept. Rows
  of a type other than `'service'` and `'material'` count in neither the
  service total nor the material total.
  `Pricing.SubTotalLeavesOutOtherKinds` states the effect on the subtotal.
- The editor shows "Total Final" as subtotal − discount for every discount
  (`src/App.tsx:887`). The printed proposal shows the subtotal when the
  discount is zero or negative. `Pricing.PrintedSummary` states exactly when
  the two agree: when the discount is not negative.

## Model

| member | source | states |
|---|---|---|
| `Text.Lower` | src/App.tsx:391 | lower-casing keeps the length, maps every capital to its own lower-case letter (code point + 32), leaves every non-capital as it is, and yields a string with no capitals |
| `Text.LowerIdempotent` | src/App.tsx:391 | lower-casing twice is lower-casing once |
| `Text.Includes` | src/App.tsx:391 | `s.includes(t)` is true exactly when `t` occurs in `s` at some position |
| `Text.IncludesEmpty` | src/App.tsx:391 | the empty term occurs in every string |
| `Quote.KindName` | src/App.tsx:85 | for a row's type, the stored string is `'service'` exactly for a service and `'material'` exactly for a material |
| `Quote.KindOf` | src/App.tsx:85 | reading a type string as a row type gives back that string |
| `Quote.KindNameRoundTrip` | src/App.tsx:85 | a well-formed kind survives the round trip through its type string |
| `Pricing.EffectiveUnitPrice` | src/App.tsx:383-388 | only a material's price differs from its unit price; a non-negative price is raised by at most the ×1.5 markup |
| `Pricing.MarkupExactlyOnMaterials` | src/App.tsx:383-388 | for a non-zero unit price, the effective price is unit price × 1.5 if and only if the type is `'material'`, and is the unit price if and only if it is not |
| `Pricing.LineTotal` | src/App.tsx:394-396 | a row with zero quantity or zero price totals zero; with non-negative quantity and price the total is at least quantity × unit price |
| `Pricing.OfKind` | src/App.tsx:398-404 | the type filter keeps exactly the rows of that type, in their order, each as often as it occurs |
| `Pricing.Reduce` | src/App.tsx:398-404 | the `reduce` fold from an accumulator is the accumulator plus the sum of the row totals |
| `Pricing.TotalOf` | src/App.tsx:398-404 | filter-then-fold equals the sum of the row totals of the rows of that type |
| `Pricing.TotalServices` | src/App.tsx:398-400 | the service total is the sum of the row totals of the service rows |
| `Pricing.TotalMaterials` | src/App.tsx:402-404 | the material total is the sum of the row totals of the material rows |
| `Pricing.SubTotal` | src/App.tsx:406 | the subtotal is the sum of all row totals minus those of rows of any other type |
| `Pricing.FinalTotal` | src/App.tsx:406-407 | the final total is negative exactly when the discount exceeds the subtotal, and is at most the subtotal exactly when the discount is not negative |
| `Pricing.SubTotalLeavesOutOtherKinds` | src/App.tsx:398-406 | with only services and materials the subtotal is the sum of all row totals |
| `Pricing.TotalsAfterAppend` | src/App.tsx:398-406 | appending a row adds its total to its own section and to the subtotal, and nothing for a row of any other type |
| `Pricing.InitialQuoteTotals` | src/App.tsx:383-407 | on the two starting rows: material 10 × 45 → 675, services 350, materials 675, subtotal 1025, discount 50 → 975 |
| `Pricing.PrintedSummary` | src/App.tsx:1189-1218 | the discount block is printed exactly when the discount is positive; the printed total equals the final total exactly when the discount is not negative, equals the subtotal exactly when it is not positive, and never exceeds the subtotal; without a discount the "Serviços" and "Materiais" lines are the service and material totals |
| `Catalog.Search` | src/App.tsx:390-392 | the search keeps exactly the entries whose lower-cased description contains the lower-cased term, in catalog order, each as often as it occurs |
| `Catalog.EmptySearchShowsAll` | src/App.tsx:390-392 | an empty search term shows the whole catalog |
| `Catalog.SearchIgnoresCase` | src/App.tsx:390-392 | two terms equal up to case select the same entries |
| `Catalog.TypeName` | src/App.tsx:154 | a choice with a non-empty value gives that value lower-cased; a choice with a missing or empty value gives `'service'`; a plain string is lower-cased; any other column gives `'service'`; the result is always lower-case |
| `Catalog.OrElse` | src/App.tsx:155-158 | the or-default keeps a present non-empty value, returns the fallback for a missing or empty one, and so never yields an empty string when the fallback is non-empty |
| `Catalog.Coerce` | src/App.tsx:152-160 | a coerced entry keeps the record's id; its type string is the record's coerced type; its description and unit are the record's title and unit or their defaults, never empty; a present price is kept and the price is zero exactly when it is missing or zero; quantity is 1 and details are empty |
| `Catalog.FromResponse` | src/App.tsx:151-163 | a body without `value` gives the empty catalog; otherwise one entry per record, each the coercion of its record |
| `Catalog.RemoteTypeExamples` | src/App.tsx:154 | `'Material'` and `'MATERIAL'` read as material, an empty choice value as service, an empty plain string as the type `''` |
| `LineItems.SetField` | src/App.tsx:419-420 | the named field takes the new value and each of the other six fields keeps its old one; description, details and unit leave the row total as it was; a new quantity gives quantity × effective price |
| `LineItems.SetFieldIdempotent` | src/App.tsx:419-420 | setting the same field twice is setting it once |
| `LineItems.Update` | src/App.tsx:416-423 | same length and order; each row with the id gets the field replaced, every other row is unchanged |
| `LineItems.UpdateIdempotent` | src/App.tsx:416-423 | repeating an update changes nothing more |
| `LineItems.UpdateAbsentId` | src/App.tsx:416-423 | an update for an id no row has leaves the list as it was |
| `LineItems.UpdateKeepsTotals` | src/App.tsx:416-423 | editing a description, details or unit changes no total |
| `LineItems.QuantityDelta` | src/App.tsx:394-396 | a new quantity changes a row total by the change in quantity × the effective unit price |
| `LineItems.UpdateQuantityChangesSection` | src/App.tsx:416-423 | with distinct ids, a new quantity on one row changes its section total by that row's new total minus its old one, and leaves every other section total as it was |
| `LineItems.UpdateKeepsUniqueIds` | src/App.tsx:416-423 | an update of any field but the id keeps ids distinct |
| `LineItems.Remove` | src/App.tsx:452-454 | removal keeps, in order, exactly the rows whose id differs, each as often as it occurs |
| `LineItems.RemoveAbsentId` | src/App.tsx:452-454 | removing an id no row has leaves the list as it was |
| `LineItems.RemoveDropsLineTotal` | src/App.tsx:452-454 | with distinct ids, removing a row's id shortens the list by one and takes exactly that row's total off the subtotal |
| `LineItems.RemoveKeepsUniqueIds` | src/App.tsx:452-454 | removal keeps ids distinct |
| `LineItems.FromCatalog` | src/App.tsx:442-448 | the copied row has the given id, quantity 1, empty details, and the entry's type, description, unit and unit price |
| `LineItems.AddFromCatalog` | src/App.tsx:442-450 | exactly one row is appended and the earlier rows are untouched |
| `LineItems.AddFromCatalogFresh` | src/App.tsx:442-450 | with a fresh id the ids stay distinct, gain exactly the new id, and the subtotal grows by one unit at the entry's effective price (nothing for another type) |
| `LineItems.FromDraft` | src/App.tsx:428-436 | the new row copies the form's description, quantity and price; its unit is the form's unit, or `'un'` when that is empty; its type is the form's type, or service when the type is missing or empty; details start empty |
| `LineItems.Accepts` | src/App.tsx:426 | a form is accepted exactly when its description is non-empty and its unit price is non-zero; the blank form is refused |
| `LineItems.AddItem` | src/App.tsx:425-440 | a form with empty description or zero price leaves the list unchanged; otherwise exactly one row built from the form is appended after the untouched earlier rows |
| `LineItems.AddItemTotals` | src/App.tsx:425-440 | with a fresh id the ids stay distinct and the subtotal grows by the new row's total exactly when the form is accepted |
| `Photos.Recaption` | src/App.tsx:479-481 | same length; each photo with the id gets the caption, every other photo is unchanged |
| `Photos.RemovePhoto` | src/App.tsx:483-485 | keeps, in order, exactly the photos whose id differs, each as often as it occurs |
| `Editor.QuoteEditor.constructor` | src/App.tsx:237-248 | the screen starts with the two sample rows (distinct ids), the blank form, no discount and no photos |
| `Editor.QuoteEditor.UpdateItem` | src/App.tsx:416-423 | the rows become the updated list; distinct ids survive a non-id update; nothing else changes |
| `Editor.QuoteEditor.AddItem` | src/App.tsx:425-440 | rows follow `AddItem`; the form is blanked exactly when accepted; a fresh id keeps ids distinct; nothing else changes |
| `Editor.QuoteEditor.AddFromCatalog` | src/App.tsx:442-450 | rows follow `AddFromCatalog`; a fresh id keeps ids distinct; nothing else changes |
| `Editor.QuoteEditor.RemoveItem` | src/App.tsx:452-454 | rows follow `Remove`; no row with the id remains; ids stay distinct; nothing else changes |
| `Editor.QuoteEditor.SetDiscount` | src/App.tsx:881 | the discount takes any number as entered; nothing else changes |
| `Editor.QuoteEditor.UpdatePhotoCaption` | src/App.tsx:479-481 | photos follow `Recaption`; nothing else changes |
| `Editor.QuoteEditor.RemovePhoto` | src/App.tsx:483-485 | photos follow `RemovePhoto`; nothing else changes |
| `Editor.InitialSession` | src/App.tsx:1189-1218 | on the starting rows the proposal prints 1025; after a discount of 50 it prints 975; after a discount of −20 it prints 1025 again |
| `Editor.QuoteEditor.Printed` | src/App.tsx:1189-1218 | the discount block is printed exactly when the discount is positive, with the subtotal and the discount as entered; the printed total never exceeds the subtotal, equals the final total exactly when the discount is not negative and the subtotal exactly when it is not positive; without a discount the two section lines are the service and material totals |

## Left out

- The network fetch of the remote catalog is not modelled. Left out with it: the offline branch with its artificial delay, logging, and the error-swallowing fallback to the static catalog (`src/App.tsx:130-168`, apart from the record mapping). These are I/O and asynchronous control. The static fallback catalog's data is not modelled either.
- The catalog reload (`loadCatalogData`) and its unguarded reload race are not modelled. They are asynchronous sequencing only.
- Login, the credential and estimator tables, and the browser-storage session flag are not modelled. They are a lookup in fixed tables plus browser storage.
- Random ids and the random budget number are not modelled. Ids are parameters of the actions instead.
- The expiration date (`getExpirationDate`) and the issue date are not modelled. They depend on the wall clock and locale formatting.
- Currency formatting (`Intl.NumberFormat`), printing (`window.print`) and photo upload through `FileReader` are browser or library calls and are not modelled.
- All markup, layout, styling and icons are not modelled.
- IEEE-754 rounding of prices and of the 1.5 markup is not modelled, because arithmetic is exact over reals. `NaN` is not modelled either. `Number(...)` on the form fields is taken to give a number, so a `NaN` quantity or price cannot arise.
- `Catalog.Coerce`: the record's id is taken already converted by `String(ID)`. Its price is taken already converted by `Number(Preco)`, with `None` for a value that is not a number. A non-string `Title`, `Unidade` or choice `Value` is not modelled. Such a value could be kept as is, or could make `toLowerCase` throw and so select the fallback catalog.
- `Text.Lower`: lower-cases only ASCII capitals and the Latin-1 capitals `À`..`Þ` (not `×`). It does not model full Unicode case mapping. That range covers Portuguese text.
- `LineItems.Update`: the field and its value come as one typed `Field`. A value of the wrong type for its key (a string written into `quantity`) is not modelled, although the TypeScript signature admits it.
