# Proposta invoice editor: a Dafny model of its data logic

Proposta is a browser editor for a proposal/invoice document. The user edits
the document inline and the view computes a subtotal, tax, discount and grand
total from the line items. An assistant dialog can fill the sender, the client
and the items from a free-text prompt sent to an external text-generation
service. Printing suggests a file name built from the invoice number.

This project models the value-in/value-out logic behind that editor:

- `Types` (`types.ts`): the `LineItem` and `Invoice` records, and a view of
  the document by key (`Get`) that single-field updates are stated against.
  It also holds the default document `InitialInvoice`, whose two dates are
  parameters.
- `Items` (`components/InvoicePaper.tsx`): the three item-list operations.
  These are editing one field of the rows with a given identifier, appending
  a placeholder row, and removing by identifier.
- `Totals` (`components/InvoicePaper.tsx`): the subtotal as the source's left
  fold (`reduce`), and the tax, discount and total derived from the two
  percentage rates. It also holds the `parseFloat(..) || 0` and
  `parseInt(..) || 0` input coercions. Arithmetic is exact (`real`), because
  the source does no rounding.
- `App` (`App.tsx`): `updateData` as a typed single-field update, reset, and
  the blank-prompt test `aiPrompt.trim()`. It also holds the generation flow
  as a state machine and the print title. The flow is split into the
  synchronous start, the completion, and the two combined into one atomic
  step. The generation outcome is an input: success with a partial record,
  or one of four failure causes.
- `InvoicePaper` (`components/InvoicePaper.tsx`): the view's handlers at the
  document level, built on `App.UpdateData`. It also has the totals derived
  on each render, and a run of item actions, which keeps identifiers
  distinct when it starts from distinct ones and every added identifier is
  fresh (`RunKeepsIdsDistinct`).

Three facts about the code shape the model:

- A generated empty item list replaces the rows. In JavaScript `[]` is
  truthy, so `generatedData.items || prev.items` (App.tsx:45) picks the
  empty list over the previous rows.
- Prices and quantities are not kept non-negative. `parseInt("-2") || 0` is
  `-2` (components/InvoicePaper.tsx:217), so a quantity is an `int` and a
  price any `real`.
- Item identifiers are not guaranteed distinct. New identifiers are random
  (components/InvoicePaper.tsx:25, services/geminiService.ts:58), so every property that needs
  distinctness takes it, and the freshness of added identifiers, as a
  precondition.

## Model

| member | source | states |
|---|---|---|
| Types.FieldsDetermineInvoice | types.ts:10-33 | two documents with equal values under every key are equal, so the frame statements made through `Get` pin a document down completely |
| Types.InitialInvoice | types.ts:35-87 | the default document takes the given dates; it has four rows with ids "1".."4", which are pairwise distinct; every row has price > 0 and quantity >= 1; both rates are 0 |
| Items.ApplyEdit | components/InvoicePaper.tsx:16 | `{...item, [field]: value}` replaces exactly the edited field; the id and the other three fields are unchanged |
| Items.EditItems | components/InvoicePaper.tsx:13-20 | editing keeps the list length and order; rows whose id is `id` get the edit; every other row is returned unchanged |
| Items.EditItemsKeepsIds | components/InvoicePaper.tsx:13-20 | editing leaves the id sequence unchanged, so it keeps ids distinct |
| Items.EditAbsentIdIsIdentity | components/InvoicePaper.tsx:14-19 | editing an id that no row carries returns the list unchanged |
| Items.AppendItem | components/InvoicePaper.tsx:23-32 | the result is the old list as its prefix plus exactly one new last row, with the given id, price 0 and quantity 1 |
| Items.AppendFreshKeepsIdsDistinct | components/InvoicePaper.tsx:23-32 | appending under a fresh id keeps the ids pairwise distinct |
| Items.RemoveById | components/InvoicePaper.tsx:34-36 | no kept row has the removed id; a row is kept exactly when it was in the list and its id differs |
| Items.RemoveByIdConcat | components/InvoicePaper.tsx:35 | removal distributes over concatenation, so the kept rows stay in their original relative order |
| Items.RemoveAbsentIdIsIdentity | components/InvoicePaper.tsx:35 | removing an id that no row carries returns the list unchanged |
| Items.RemoveByIdIdempotent | components/InvoicePaper.tsx:34-36 | removing the same id twice equals removing it once |
| Items.RemoveByIdLength | components/InvoicePaper.tsx:35 | the result is shorter by exactly the number of rows carrying the id |
| Items.RemoveKeepsIdsDistinct | components/InvoicePaper.tsx:34-36 | removal keeps ids pairwise distinct |
| Items.AddThenRemoveRestores | components/InvoicePaper.tsx:23-36 | for a fresh id, appending a row and then removing by that id restores the original list exactly |
| Items.AddThenRemoveNeedsFreshId | components/InvoicePaper.tsx:23-36 | without freshness the round trip fails, because a row that already had the id is removed too |
| Totals.ReduceIsSum | components/InvoicePaper.tsx:38-40 | the `reduce` fold adds exactly the sum of price x quantity to its starting accumulator |
| Totals.Subtotal | components/InvoicePaper.tsx:38-40 | `calculateSubtotal`, a left fold from 0, equals the independently defined right-fold sum of price x quantity over all rows |
| Totals.SumConcat | components/InvoicePaper.tsx:39 | additivity: the sum over `a + b` is the sum over `a` plus the sum over `b` |
| Totals.SubtotalAppend | components/InvoicePaper.tsx:38-40 | appending a row adds exactly that row's price x quantity to the subtotal |
| Totals.SumPermutation | components/InvoicePaper.tsx:38-40 | two lists with the same multiset of rows have the same sum |
| Totals.SubtotalPermutation | components/InvoicePaper.tsx:38-40 | the subtotal does not depend on the order of the rows |
| Totals.Derive | components/InvoicePaper.tsx:50-52 | tax and discount are subtotal x rate / 100; total x 100 = subtotal x (100 + tax rate - discount rate) for any real rates; total = subtotal when both rates are 0 |
| Totals.DeriveAdditive | components/InvoicePaper.tsx:50-52 | for fixed rates, the total derived from x + y is the total derived from x plus the total derived from y |
| Totals.ComputeTotals | components/InvoicePaper.tsx:38-52 | the four rendered amounts are the ones derived from the sum of price x quantity over all rows, although the source computes the subtotal with a left fold |
| Totals.TotalsDependOnSum | components/InvoicePaper.tsx:49-52 | two row lists with the same sum give the same four amounts for the same rates |
| Totals.TotalAdditive | components/InvoicePaper.tsx:49-52 | for fixed rates, the grand total over `a + b` is the total over `a` plus the total over `b` |
| Totals.ExampleTwoRows | components/InvoicePaper.tsx:49-52 | rows 1000x2 and 500x2 with rates 0 give subtotal 3000 and total 3000 |
| Totals.ExampleRates | components/InvoicePaper.tsx:49-52 | subtotal 2000 with tax 10 and discount 5 gives tax 200, discount 100 and total 2100 |
| Totals.DefaultTotals | types.ts:51-83 | the default document's subtotal is 1000x2 + 1000x1 + 500x2 + 1000x3 = 7000, and its total is 7000 |
| Totals.CoerceFloat | components/InvoicePaper.tsx:209 | the zero fallback after `parseFloat` gives 0 for NaN and passes any parsed number through; the result is 0 exactly when the input was NaN or 0 |
| Totals.CoerceInt | components/InvoicePaper.tsx:217 | the zero fallback after `parseInt` gives 0 for NaN and passes any parsed integer through; the result is 0 exactly when the input was NaN or 0 |
| App.WithText | App.tsx:15-17 | setting one text field gives it the new text and leaves the other thirteen text fields, the rows and both rates unchanged |
| App.UpdateData | App.tsx:15-17 | the targeted key holds the new value and every other key keeps its previous value |
| App.UpdateDataUnique | App.tsx:15-17 | any document with the new value at the target and the old values elsewhere is the update's result |
| App.UpdateDataWithCurrentValue | App.tsx:15-17 | writing back the value a key already holds leaves the document unchanged |
| App.InitialState | App.tsx:9-13 | the component starts with the default document, not generating, the dialog closed, an empty prompt and no error |
| App.HandleReset | App.tsx:27-31 | confirming sets the document to the default one; declining leaves the state unchanged; the dialog state is never touched |
| App.ResetForgetsEdits | App.tsx:27-31 | after a confirmed reset, the document does not depend on any earlier edit |
| App.ResetReturnsToInitial | App.tsx:27-31 | a confirmed reset returns to exactly the document of the first render, and resetting an unedited state changes nothing |
| App.Trim | App.tsx:34 | `trim()` is empty exactly when every character is ECMAScript whitespace or a line terminator; otherwise the result starts and ends with a non-whitespace character |
| App.Merge | App.tsx:41-46 | sender name, client name and items come from the partial when it has them, and otherwise stay as they were; every other key is unchanged |
| App.MergeIdempotent | App.tsx:41-46 | merging the same partial twice equals merging it once |
| App.MergeNothingIsIdentity | App.tsx:41-46 | a partial that sets no key leaves the document unchanged |
| App.MergeReplacesItems | App.tsx:45 | a generated item list, even an empty one, replaces the rows completely |
| App.BeginGeneration | App.tsx:33-37 | a blank prompt leaves the state unchanged; otherwise the pending flag is set and the error cleared, with the document, prompt and dialog unchanged |
| App.FinishGeneration | App.tsx:39-53 | on success the partial is merged, the dialog closed and the prompt cleared; on failure the document, dialog and prompt are kept and the error is set; the pending flag is false either way |
| App.AiGenerate | App.tsx:33-54 | the whole generation step: no state change on a blank prompt; otherwise the success or failure outcome above, with no error after success and the pending flag cleared |
| App.FailureCauseIrrelevant | App.tsx:49-50 | all four failure causes produce the same state |
| App.FailureKeepsDocument | App.tsx:49-50 | a failed attempt leaves every key of the document, items included, unchanged (no partial application) |
| App.RetryAfterFailure | App.tsx:49-53 | a second failure after a first one leaves the state where the first left it |
| App.PrintTitle | App.tsx:22 | the title is "Proposta-" followed by the invoice number, or by "Nova" when the number is empty |
| App.DefaultPrintTitle | types.ts:36 | the default document, whose number is "PROP-001", prints as "Proposta-PROP-001" |
| App.PrintTitleInjective | App.tsx:22 | different non-empty invoice numbers give different titles |
| App.PrintTitleFallbackCollides | App.tsx:22 | an empty number and the number "Nova" give the same title |
| App.HandlePrint | App.tsx:19-25 | the title shown while printing is the print title, and the title afterwards is the original one |
| InvoicePaper.HandleItemChange | components/InvoicePaper.tsx:13-20 | the rows are the edited rows, and no other key of the document changes |
| InvoicePaper.AddItem | components/InvoicePaper.tsx:23-32 | the rows gain one placeholder row at the end, and no other key changes |
| InvoicePaper.RemoveItem | components/InvoicePaper.tsx:34-36 | the rows with the id are removed, and no other key changes |
| InvoicePaper.PriceInput | components/InvoicePaper.tsx:209 | rows with the id get the parsed price, or 0 on NaN; other rows and other keys are unchanged |
| InvoicePaper.QuantityInput | components/InvoicePaper.tsx:217 | rows with the id get the parsed quantity, or 0 on NaN; other rows and other keys are unchanged |
| InvoicePaper.TaxRateInput | components/InvoicePaper.tsx:258 | the tax rate becomes the parsed value, or 0 on NaN; no other key changes |
| InvoicePaper.DiscountRateInput | components/InvoicePaper.tsx:271 | the discount rate becomes the parsed value, or 0 on NaN; no other key changes |
| InvoicePaper.ViewTotals | components/InvoicePaper.tsx:49-52 | the rendered subtotal is the item sum; tax x 100 = subtotal x tax rate; discount x 100 = subtotal x discount rate; total x 100 = subtotal x (100 + tax rate - discount rate) |
| InvoicePaper.TextEditKeepsSubtotal | components/InvoicePaper.tsx:13-20 | editing a row's name or description never changes the subtotal |
| InvoicePaper.EditChangesSubtotalByOneRow | components/InvoicePaper.tsx:38-40 | with distinct ids, editing row k changes the subtotal by exactly the change in that row's price x quantity |
| InvoicePaper.AddItemKeepsSubtotal | components/InvoicePaper.tsx:23-40 | adding a placeholder row leaves the subtotal and the total unchanged |
| InvoicePaper.AddThenRemoveRestoresDocument | components/InvoicePaper.tsx:23-36 | for a fresh id, adding a row and then removing it restores the whole document |
| InvoicePaper.StepKeepsIdsDistinct | components/InvoicePaper.tsx:13-36 | an edit, a removal, or an addition under a fresh id keeps ids distinct |
| InvoicePaper.Run | components/InvoicePaper.tsx:13-36 | any sequence of item actions, with repeated or colliding ids included, changes no key of the document other than the rows |
| InvoicePaper.RunKeepsIdsDistinct | components/InvoicePaper.tsx:13-36 | a run that starts from distinct ids and adds only fresh ids ends with distinct ids |

## Left out

- JSX rendering, CSS and layout in `App.tsx` and `components/InvoicePaper.tsx`: presentation only.
- `Intl.NumberFormat` currency formatting, the "-" prefix on the discount, and the signature text: presentation that depends on locale and Unicode library behaviour.
- `Math.random()` identifiers: the new identifier is a parameter. Properties that need a fresh identifier state it as a precondition, because the code does not guarantee freshness.
- `new Date()` / `Date.now()` for the default dates: the two date strings are parameters of `InitialInvoice`.
- `services/geminiService.ts`: it wraps the external client and `JSON.parse`. The API-key check, the empty-response check, the parse and the projection to `{senderName, clientName, items}` are not modelled. Their result is the `Outcome` input, with one `FailureKind` per failure cause.
- App.Merge: a generated key that is present with the value `undefined` would overwrite `senderName` or `clientName` with `undefined`. A typed record cannot hold that value, so the model treats only an absent key as "keep". For `items` the `||` fallback covers `undefined`.
- `parseFloat` / `parseInt` themselves: their result (`NaN` or a number) is the input of `CoerceFloat` / `CoerceInt`. `Infinity`, `-0` and IEEE-754 rounding are not represented: numbers are exact reals and integers.
- `window.confirm`, `window.print` and `document.title`: the confirmation is a boolean parameter, and printing is reduced to the two titles it sets.
- The `async`/`await` of `handleAiGenerate`: it is an atomic step that takes the outcome. `BeginGeneration` exposes the pending state in between.
- The dialog's open/close buttons, prompt typing, and the button's `disabled` guard (App.tsx:75, 103, 116, 135): plain setters or JSX attributes with no logic beyond what the handlers model.
- `handleItemChange` with the field `id`: the view never edits identifiers, so `ItemEdit` has only the four fields the view exposes.
- App.PrintTitle: no input of the view edits `invoiceNumber` and generation never sets it, so in the running program the number is always the default one, and the `'Nova'` fallback, with the collision `PrintTitleFallbackCollides` exhibits, is unreachable; the model covers it because `handlePrint` (App.tsx:22) handles it.
