# Pharmacy billing: a Dafny model

This project models the core of a single-shop pharmacy billing application, medibill-keeper.

**The store.** The application keeps three pieces of state:

- an inventory of medicines, each with a price, a stock and a category;
- a history of bills;
- the bill being composed at the counter (the cart): a customer name and an ordered list of lines.

**Cart operations.** Adding a medicine to the cart is checked against its stock. Adding a medicine that already has a line sums the quantities and checks the sum against stock. A line's quantity can be set to a new value, and a line can be removed. Generating a bill does four things:

- it refuses without a customer name or without lines;
- it appends an unpaid bill carrying the cart's lines and their total;
- it takes each line's quantity off the stock of its medicine;
- it clears the cart.

**Views.** The pages derive views from this state:

- the sales report: total, paid and unpaid amounts, units and revenue per medicine, the five best sellers, and medicine count and stock value per category;
- the dashboard: pending bills, inventory value and the low-stock list;
- the searches on the billing and inventory pages.

The payment dialog reformats what is typed into the card-number, expiry and CVV fields, and it validates the form before payment.

**Modules.**

- `Types`: the records.
- `AppContext`: the store as a class `Store` with the cart rules as pure functions.
- `Reports`, `Dashboard`, `Billing`, `Inventory`, `PaymentModal`: the pages and the dialog.
- `Seqs`, `Dict`, `Text`: the array, dictionary and string operations these rely on.

Money is kept in integer paise. Identifiers are opaque strings. Fresh identifiers and today's date are parameters.

The report loops build JavaScript objects used as dictionaries. They are modelled as lists of (key, value) pairs in insertion order. Each loop method is proved equal to one generic dictionary-building function, `Dict.Tally`. The properties of that function are proved once: one entry per key, each holding exactly the contributions for its key, and nothing lost or counted twice.

## Model

| member | source | states |
|---|---|---|
| `AppContext.FindMedicine` | src/context/AppContext.tsx:245 | no result exactly when no medicine has the id; otherwise a medicine of the inventory with that id |
| `AppContext.FindDistinct` | src/context/AppContext.tsx:390 | in an inventory with distinct ids, the lookup of a stored id finds that very record |
| `AppContext.LineIndex` | src/context/AppContext.tsx:267-269 | -1 exactly when the cart has no line for the medicine; otherwise the position of its first line |
| `AppContext.AddLine` | src/context/AppContext.tsx:244-305 | refused as "not found" exactly when the medicine is not in the inventory; an accepted add keeps one line per medicine |
| `AppContext.AddLineAccepts` | src/context/AppContext.tsx:256-284 | an add is accepted iff the medicine exists, the requested quantity is within stock, and the cart's quantity of it after the add is within stock |
| `AppContext.AddLineQuantities` | src/context/AppContext.tsx:271-303 | an accepted add raises that medicine's cart quantity by the requested amount, keeps it within stock, and leaves every other medicine's quantity unchanged |
| `AppContext.AddLinePlacement` | src/context/AppContext.tsx:271-303 | every line other than the medicine's own keeps its place, even in a cart with duplicate lines; an existing line keeps its position, price and name |
| `AppContext.AddLineNew` | src/context/AppContext.tsx:292-303 | a medicine not yet in the cart gets exactly one new line at the end, at the given price and with the inventory name |
| `AppContext.AddLineSubtotal` | src/context/AppContext.tsx:271-303 | an accepted add raises the cart total by the charged unit price (that of the existing line, else the given one) times the quantity |
| `AppContext.Subtotal` | src/context/AppContext.tsx:371-374 | the total stored with a bill: 0 for an empty cart, non-negative when prices and quantities are; `AppContext.AddLineSubtotal` and `AppContext.RemoveLineEffect` state how cart changes move it |
| `AppContext.AddTwice` | src/context/AppContext.tsx:266-291 | adding a medicine twice is accepted iff both the second quantity and the summed quantity are within stock, and then yields one line with the summed quantity |
| `AppContext.RemoveLine` | src/context/AppContext.tsx:307-312 | the result has no line for the medicine, keeps every other line, and is an order-preserving subsequence of the cart |
| `AppContext.RemoveLineEffect` | src/context/AppContext.tsx:307-312 | removal is idempotent and a no-op for an absent medicine; otherwise it cuts out exactly that line, keeps the rest in order and lowers the total by the line's amount |
| `AppContext.WithQuantity` | src/context/AppContext.tsx:336-340 | same length; exactly the lines of the medicine get the new quantity, the others are unchanged |
| `AppContext.SetLineQuantity` | src/context/AppContext.tsx:314-342 | accepted iff the medicine exists and the quantity is within its stock (no lower bound); "not found" exactly for an unknown medicine; lines stay distinct |
| `AppContext.SetLineQuantityEffect` | src/context/AppContext.tsx:314-342 | an accepted change sets the medicine's cart quantity, leaves a cart without that medicine unchanged, and touches no other line |
| `AppContext.AfterSaleEffect` | src/context/AppContext.tsx:388-397 | after a sale each medicine has lost exactly its line's quantity (stock may go negative); medicines not in the cart and all other fields are unchanged |
| `AppContext.CanCommit` | src/context/AppContext.tsx:352-368 | no contract of its own: the guard of `generateBill`, a customer name and at least one line; `AppContext.Store.GenerateBill` commits exactly when it holds and `Billing.GenerateEnabled` ties the button to it |
| `AppContext.ReplaceById` | src/context/AppContext.tsx:191-194 | same length and ids; exactly the records with the given id are replaced |
| `AppContext.ReplaceByIdSame` | src/context/AppContext.tsx:191-194 | writing back a record already in a duplicate-free inventory changes nothing |
| `AppContext.SaleStepSkips` | src/context/AppContext.tsx:390-391 | a loop pass for a medicine missing from the inventory sells nothing |
| `AppContext.SaleStepSells` | src/context/AppContext.tsx:390-396 | a loop pass for a medicine in the inventory writes back that record with its line's quantity taken off |
| `AppContext.SellLine` | src/context/AppContext.tsx:390-396 | one pass of the stock loop keeps the inventory's length and ids; `AppContext.SaleStepSkips` and `AppContext.SaleStepSells` state what it writes |
| `AppContext.SellLines` | src/context/AppContext.tsx:389-397 | the whole stock loop keeps the inventory's length and ids; `AppContext.SellLinesIsSale` proves it ends in the sale |
| `AppContext.SaleStep` | src/context/AppContext.tsx:389-397 | one pass of the stock loop on the sale so far is the sale of one more line |
| `AppContext.SellLinesIsSale` | src/context/AppContext.tsx:389-397 | the stock loop as written, one `updateMedicine` per line, ends in the inventory where each medicine lost exactly the quantity sold of it |
| `AppContext.LowStockMedicines` | src/context/AppContext.tsx:403-405 | exactly the medicines with at most ten units, in inventory order |
| `AppContext.ExpiringMedicines` | src/context/AppContext.tsx:407-416 | exactly the medicines whose expiry date parses and falls on or before the cutoff, in inventory order |
| `AppContext.Store.constructor` | src/context/AppContext.tsx:149-157 | starts from the given inventory and history with an empty cart |
| `AppContext.Store.AddMedicine` | src/context/AppContext.tsx:182-189 | appends the record under the fresh id; nothing else changes |
| `AppContext.Store.UpdateMedicine` | src/context/AppContext.tsx:191-199 | the inventory becomes the by-id replacement; bills and cart unchanged |
| `AppContext.Store.DeleteMedicine` | src/context/AppContext.tsx:201-209 | exactly the medicines with other ids remain, in order; cart lines are not touched |
| `AppContext.Store.AddBill` | src/context/AppContext.tsx:211-218 | appends the bill under the fresh id; nothing else changes |
| `AppContext.Store.UpdateBill` | src/context/AppContext.tsx:220-228 | every bill with the same id is replaced; nothing else changes |
| `AppContext.Store.DeleteBill` | src/context/AppContext.tsx:230-238 | the bills with other ids remain, in order; nothing else changes |
| `AppContext.Store.SetCustomerName` | src/context/AppContext.tsx:240-242 | only the customer name changes, with no validation |
| `AppContext.Store.AddItemToBill` | src/context/AppContext.tsx:244-305 | the cart's lines become the accepted result, or stay as they were on refusal; name, inventory and bills unchanged |
| `AppContext.Store.RemoveItemFromBill` | src/context/AppContext.tsx:307-312 | the cart's lines become the filtered lines; nothing else changes |
| `AppContext.Store.UpdateBillItemQuantity` | src/context/AppContext.tsx:314-342 | the cart's lines become the accepted result, or stay as they were on refusal; nothing else changes |
| `AppContext.Store.ClearCurrentBill` | src/context/AppContext.tsx:344-349 | the cart becomes empty with an empty name; nothing else changes |
| `AppContext.Store.ApplySale` | src/context/AppContext.tsx:388-397 | the loop leaves the inventory where every medicine lost the quantity sold of it; bills and cart unchanged |
| `AppContext.Store.GenerateBill` | src/context/AppContext.tsx:351-401 | without a name or lines nothing changes; otherwise exactly one unpaid bill with the cart's lines and their total is appended, the stock is reduced per line, and the cart is cleared |
| `Reports.TotalSales` | src/pages/Reports.tsx:38 | 0 without bills, non-negative when every stored total is |
| `Reports.PaidAmount` | src/pages/Reports.tsx:43 | 0 when no bill is paid, non-negative when every stored total is; with the unpaid amount it adds up to the total sales (`Reports.PaidUnpaidPartition`) |
| `Reports.UnpaidAmount` | src/pages/Reports.tsx:44 | 0 when every bill is paid, non-negative when every stored total is |
| `Reports.PaidBills` | src/pages/Reports.tsx:41 | exactly the paid bills, in order |
| `Reports.UnpaidBills` | src/pages/Reports.tsx:42 | exactly the unpaid bills, in order |
| `Reports.PaidUnpaidPartition` | src/pages/Reports.tsx:38-44 | paid and unpaid bills count every bill once, and the paid and unpaid amounts add up to the total sales |
| `Reports.MedicinesSold` | src/pages/Reports.tsx:47-58 | the nested loops build the sales dictionary of all lines of all bills |
| `Reports.RecordBill` | src/pages/Reports.tsx:50-57 | the inner loop extends the dictionary by the lines of one bill |
| `Reports.RecordLine` | src/pages/Reports.tsx:51-56 | one line creates its medicine's entry at zero when missing, then adds its quantity and revenue |
| `Reports.LinesOccur` | src/pages/Reports.tsx:49-50 | a medicine occurs among the flattened lines exactly when some bill has a line for it |
| `Reports.MedicinesSoldCorrect` | src/pages/Reports.tsx:47-58 | one entry per medicine sold in some bill, and that entry holds the medicine's total units and total revenue over all bills |
| `Reports.SoldTotals` | src/pages/Reports.tsx:47-58 | summed over the dictionary, units and revenue equal the totals over all lines |
| `Reports.SoldRevenueIsTotalSales` | src/pages/Reports.tsx:38-58 | when each bill's total is its lines' total, the revenue per medicine adds up to the total sales |
| `Reports.SellerRows` | src/pages/Reports.tsx:60-69 | one row per entry, named from the inventory or "Unknown" |
| `Reports.TopSelling` | src/pages/Reports.tsx:60-71 | at most five rows, non-increasing in units, drawn without repetition from the rows |
| `Reports.TopSellingDominates` | src/pages/Reports.tsx:70-71 | a row cut from the top five sold no more units than any row kept |
| `Reports.TopSellingEntries` | src/pages/Reports.tsx:60-71 | every top seller was sold in some bill and carries its total units and revenue, and its inventory name or "Unknown" |
| `Reports.AddToCategory` | src/pages/Reports.tsx:77-81 | one loop step creates the category's entry at zero when missing and adds the contribution |
| `Reports.CategoryCounts` | src/pages/Reports.tsx:74-82 | the loop builds the per-category count dictionary |
| `Reports.StockValueByCategory` | src/pages/Reports.tsx:90-98 | the loop builds the per-category stock-value dictionary |
| `Reports.CategoryCountsCorrect` | src/pages/Reports.tsx:74-82 | one entry per category present, each holding the number of its medicines; the counts add up to the number of medicines |
| `Reports.StockValueByCategoryCorrect` | src/pages/Reports.tsx:90-98 | each category holds the stock value of its medicines; the values add up to the inventory's stock value |
| `Reports.BarChart` | src/pages/Reports.tsx:100-105 | the per-category values in non-increasing order, a permutation of the input |
| `Billing.CalculateTotal` | src/pages/Billing.tsx:92-97 | the total the page shows, folded from the left as the page does, is the total `generateBill` stores for the cart; 0 for an empty cart, and non-negative when prices and quantities are |
| `Billing.TotalFromSubtotal` | src/pages/Billing.tsx:93-96 | the page's running sum ends at its starting value plus the cart's total |
| `Billing.FilteredBills` | src/pages/Billing.tsx:66-68 | exactly the bills whose lower-cased customer name contains the lower-cased term, in order; an empty term keeps every bill |
| `Billing.GenerateEnabled` | src/pages/Billing.tsx:358 | the button is enabled exactly when `generateBill` would commit |
| `Billing.QuantityInput` | src/pages/Billing.tsx:270 | never 0; NaN and 0 fall back to 1, any other parsed value is kept (negative included) |
| `Billing.NegativeQuantityAccepted` | src/pages/Billing.tsx:270 | typing -3 yields an accepted cart line of -3 units with a negative total, and generating the bill would raise the stock |
| `Billing.ClampedQuantityInput` | src/pages/Billing.tsx:268-270 | at least 1, and equal to the parsed value when that is at least 1 |
| `Billing.ClampedAddKeepsLinesPositive` | src/pages/Billing.tsx:268-270 | with the clamped field, every accepted add keeps all cart lines positive |
| `Billing.PositiveSaleNeverRestocks` | src/context/AppContext.tsx:389-397 | when every line is positive, generating a bill never raises a medicine's stock |
| `Billing.HandleAddItem` | src/pages/Billing.tsx:70-85 | without a selection or for an unknown id nothing happens; otherwise the add goes through at the inventory price and the selection and quantity reset to '' and 1 |
| `Billing.HandleQuantityChange` | src/pages/Billing.tsx:87-90 | a quantity below 1 changes nothing; otherwise the cart follows `updateBillItemQuantity`; positive lines stay positive |
| `Inventory.FilteredMedicines` | src/pages/Inventory.tsx:37-43 | exactly the medicines whose lower-cased name, category or manufacturer contains the lower-cased term, in order; an empty term keeps everything |
| `Inventory.HighlightIsLowStock` | src/pages/Inventory.tsx:133 | the stock highlight marks exactly the medicines of the low-stock view |
| `Inventory.EditChange` | src/pages/Inventory.tsx:54-63 | a record is being edited after a change exactly when one was before, and no input of the dialog changes its id; `Inventory.EditChangeFrame` states which property changes |
| `Inventory.EditChangeFrame` | src/pages/Inventory.tsx:54-63 | a change sets only the named property, to a number for `price` and `stock` and to the text otherwise; an unknown name changes nothing; a dialog input never changes the id |
| `Inventory.EditSubmit` | src/pages/Inventory.tsx:65-70 | the edited copy is written back by id and editing ends; without a copy nothing changes |
| `Inventory.ApplyEdits` | src/pages/Inventory.tsx:54-63 | a sequence of changes yields a record exactly when one was being edited |
| `Inventory.ApplyEditsKeepsId` | src/pages/Inventory.tsx:54-63 | any sequence of dialog inputs keeps the record's id |
| `Inventory.EditRoundTrip` | src/pages/Inventory.tsx:45-70 | clicking edit on a record, changing it through the dialog and submitting replaces that record in place and nothing else; submitting without changes leaves the inventory as it was |
| `Dashboard.PendingBills` | src/pages/Dashboard.tsx:18 | at most the number of bills, complements the paid count, and is zero exactly when every bill is paid |
| `Dashboard.TotalInventoryValue` | src/pages/Dashboard.tsx:19-21 | 0 for an empty inventory, non-negative when prices and stocks are |
| `Dashboard.InventoryValueIsCategoryTotal` | src/pages/Dashboard.tsx:19-21 | the inventory value equals the sum of the stock-value-by-category bars |
| `Dashboard.InventoryValueAppend` | src/pages/Dashboard.tsx:19-21 | appending any medicine (as `addMedicine` does, also to an empty inventory) adds its price times its stock |
| `Dashboard.InventoryValueReplace` | src/pages/Dashboard.tsx:19-21 | writing back a record by id (as `updateMedicine` does) changes the value by the new price times stock less the old |
| `Dashboard.LowStockCount` | src/pages/Dashboard.tsx:47 | at most the number of medicines, and zero exactly when every medicine has more than ten units |
| `Dashboard.StockTier` | src/pages/Dashboard.tsx:96 | no contract of its own: five units or fewer is critical, otherwise a warning; `Dashboard.LowStockTiers` states the tiers on the low-stock list |
| `Dashboard.LowStockTiers` | src/pages/Dashboard.tsx:96 | on the low-stock list, five units or fewer is critical and six to ten is a warning |
| `PaymentModal.FormatCardNumber` | src/components/PaymentModal.tsx:45-52 | the stored card number is at most 19 characters |
| `PaymentModal.GroupFours` | src/components/PaymentModal.tsx:48 | no contract of its own: the regex replacement as a left-to-right scan; `PaymentModal.GroupFoursDigits` states what it yields on digits |
| `PaymentModal.GroupFoursDigits` | src/components/PaymentModal.tsx:48 | on digits, the regex replacement is the grouping in fours plus one space after a final complete group |
| `PaymentModal.GroupedUngroups` | src/components/PaymentModal.tsx:46-48 | removing the separators of a grouping gives the digits back |
| `PaymentModal.TrimGroupFours` | src/components/PaymentModal.tsx:48-49 | trimming removes exactly the space after a final complete group |
| `PaymentModal.TakeGrouped` | src/components/PaymentModal.tsx:50 | cutting a grouping to 19 characters keeps exactly the first 16 digits |
| `PaymentModal.FormatCardNumberDigits` | src/components/PaymentModal.tsx:46-50 | for digits and white space, the stored card number is the first (at most 16) digits in groups of four with no trailing space |
| `PaymentModal.CardNumberRoundTrip` | src/components/PaymentModal.tsx:46-50 | formatting 16 or more digits keeps the first 16 digits and passes the card-number check of line 116 |
| `PaymentModal.CardNumberIdempotent` | src/components/PaymentModal.tsx:45-52 | reformatting a card number typed as digits and white space changes nothing |
| `PaymentModal.FormatExpiry` | src/components/PaymentModal.tsx:56-63 | at most 5 characters; with two digits or fewer typed it is those digits, with more the slash is the third character; it passes the MM/YY check exactly when at least four digits were typed |
| `PaymentModal.ExpiryKeepsDigits` | src/components/PaymentModal.tsx:57-61 | the stored expiry holds the first four digits typed and only those |
| `PaymentModal.ExpiryIdempotent` | src/components/PaymentModal.tsx:56-63 | reformatting a stored expiry changes nothing |
| `PaymentModal.FormatCvv` | src/components/PaymentModal.tsx:67-71 | only digits, the first at most four typed, and it passes the CVV check exactly when at least three digits were typed |
| `PaymentModal.CvvIdempotent` | src/components/PaymentModal.tsx:67-71 | reformatting a stored CVV changes nothing |
| `PaymentModal.HandleChange` | src/components/PaymentModal.tsx:41-74 | after a change of the card number, expiry or CVV the stored field stays within its limit (19 characters, 5 characters, 4 digits); `PaymentModal.HandleChangeFrame` states that only the named field changes |
| `PaymentModal.HandleChangeFrame` | src/components/PaymentModal.tsx:41-74 | a change sets only the named field, formatted for card number, expiry and CVV and verbatim for the name; other names change no field |
| `PaymentModal.ValidateForm` | src/components/PaymentModal.tsx:114-156 | the form is valid exactly when all four checks pass |
| `PaymentModal.ValidateFormOrder` | src/components/PaymentModal.tsx:114-156 | the reported failure is the first failing check, in the order card number, name, expiry, CVV |
| `PaymentModal.FilledFormValidates` | src/components/PaymentModal.tsx:41-156 | filling the form with 16 card digits, a visible name, four expiry digits and three or four CVV digits passes validation |
| `Text.TrimBlank` | src/components/PaymentModal.tsx:126 | `trim()` leaves nothing exactly when every character is white space |

## Left out

- Persistence in local storage, toast notifications, React wiring and rendering are left out, because they are I/O and presentation. Fresh ids (`uuidv4`) and today's date are parameters.
- Printing a bill (`printBill`, the HTML popup) is left out as presentation and I/O.
- The payment dialog's submit handler and the payment call are left out: they are asynchronous calls into code outside the model. So are the Billing page's generate and payment handlers, which rely on a context API that `src/context/AppContext.tsx` does not implement. Only `validateForm` and the field formatting are modelled.
- Two parts of `getExpiringMedicines` are parameters: `Date` parsing, and the "three months from now" cutoff with its `setMonth` rollover. Dates compare as calendar triples, and a date that does not parse compares false.
- Floating-point money and `toFixed` rounding on the bar chart are left out. Money is integer paise, so the sums are exact.
- The order of ties in the top-selling and bar-chart sorts is left out, and so is `Object.entries` listing integer-like keys first. Only the non-increasing order and the permutation are stated.
- Dictionary keys that name inherited object properties (such as `constructor`) are left out; keys are plain strings.
- `toLowerCase` lowers ASCII letters only.
- `PaymentModal.CardNumberIdempotent` holds for card numbers typed as digits and white space only. With other characters the regex replacement can put a space just before the cut at 19 characters; that space survives the first formatting and is trimmed by the second, so reformatting is then not a no-op.
- `PaymentModal.FormatCardNumber` and `PaymentModal.ValidateForm` count lengths and cut strings by characters (Unicode scalar values), where JavaScript's `length` and `substring` count UTF-16 code units. The two agree on input within the Basic Multilingual Plane. Outside it they differ: eight emoji are 16 code units and pass the card-number length check in the source but not in the model, and `substring(0, 19)` can split a surrogate pair, which a Dafny string cannot hold.
- The category and manufacturer fields are treated as always present, so the optional chaining in the inventory search never short-circuits.
- Number parsing is a parameter: `parseInt` on the quantity field is an `Option<int>` (None standing for NaN). In the edit dialog, `number` is `parseFloat`'s result for `price` and `stock`. A NaN price or stock is not represented, and neither is a fractional one.
- The inventory page's delete dialog only calls `deleteMedicine`, which is modelled. The add-medicine page and the navigation and customer-analytics components are not part of this model.
- `AppContext.Store.AddMedicine` requires the fresh id to be unused. This stands for the uniqueness of `uuidv4`, which the model cannot generate.
- `AppContext.Store.ApplySale` runs the stock loop over the cart's lines, which are distinct by medicine.
- `AppContext.Store.ApplySale` writes `updateMedicine`'s by-id replacement directly in the loop instead of calling the method. The effect on the inventory is the same and is proved through `AppContext.SellLinesIsSale`.
- `AppContext.Store.AddItemToBill` and the other `Store` methods require the invariant: distinct medicine ids, and at most one cart line per medicine. The application maintains it, because ids are fresh, never edited through the dialog (`Inventory.ApplyEditsKeepsId`), and the cart merges repeat adds.
- `AppContext.Store.DeleteMedicine` leaves cart lines for the deleted medicine in place, as the source does. Generating the bill then skips their stock update (`AppContext.SaleStepSkips`).
- `PaymentModal.HandleChangeFrame` does not model input names outside the four fields: the source would store them as extra keys that nothing reads.
- `Reports.SoldRevenueIsTotalSales` holds only for bills whose stored total is their lines' total. That is how `generateBill` stores them, but `updateBill` can store any total.
- The bill record's `customerId` and `discountAmount` fields are not part of this model: the context shown never sets them.

## Findings

| source | as written | input that shows it | evidently intended | confidence | as-written member | corrected member |
|---|---|---|---|---|---|---|
| src/pages/Billing.tsx:270 | the parsed quantity falls back to 1 only for NaN and 0, so negative numbers are kept; the `min="1"` attribute does not stop a typed value | typing `-3` for a medicine in stock: the add is accepted (stock check `stock < -3` fails), the cart shows a line of -3 units with a negative total, and generating the bill raises the stock by 3 | quantities below 1 fall back to 1, so every cart line is positive and a sale never restocks | not executed | `Billing.NegativeQuantityAccepted` | `Billing.ClampedQuantityInput` |
