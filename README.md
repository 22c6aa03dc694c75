# Aevum clinic front-end: a verified model of its in-memory rules

The Aevum front-end is a React site for a chain of longevity clinics. It has a patient portal, an admin content dashboard and a multi-clinic webshop with a seller dashboard. Most of it is layout over a hosted database. This project models the parts that carry rules of their own, one Dafny module per source file:

- **Webshop cart** (`Webshop`, `CartModal`). Adding to the cart is keyed by the pair (product id, pickup clinic). The modal's quantity change and removal are keyed by product id alone, so one press reaches every clinic's line of that product (`CartModal.StepButtonReachesOtherClinic`). The cart total, the grouping by clinic, checkout and clearing are modelled too.
- **Invoice builder** (`InvoiceGenerator`). It models:
  - the line items, whose totals stay quantity × price;
  - subtotal, 19% TVA, total, and a seller commission taken on the VAT-inclusive total;
  - the Romanian number-to-words helper, over whole numbers.
- **Reports** (`InventoryManagement`, `SalesTracking`, `SellerDashboard`). They model:
  - the stock-threshold classification and the worst-stock row status;
  - clinic filters and sums;
  - the top seller;
  - the seller's sale log, which a QR scan prepends to with a zero-padded invoice number.
- **Sessions** (`AuthContext`, `SellerAuthContext`) and the pages built on them (`AuthPage`, `LoginPage`, `AdminDashboard`, `Dashboard`, `SellerDashboard`).
  - The code, unlike the design documents, has no remote session or profile resolver. Both contexts are mock state machines over a browser storage slot.
  - The patient login accepts any non-empty e-mail with a password of at least 6 characters.
  - The seller login looks the e-mail up among three fixed sellers.
  - The storage slot is the `stored` field of each provider class. Each one-second delay is one atomic step.
- **Admin records** (`ProductsManager`, `ImageUploader`). They model:
  - the product row ↔ form ↔ submitted data mapping;
  - update versus insert;
  - category labels and the struck-through price;
  - the storage name of an uploaded file, the batch upload, the name of an image added by URL, the delete filter and the delete-button rule.
- **Shared helpers**:
  - `Text` holds the JavaScript string operations used: ASCII case mapping, `includes`, `trim`, `split(sep).pop()`, `startsWith`, `String(n)` and `padStart`.
  - `Seqs` holds `filter`, count and `reduce` sums.
  - `Clinics` holds the clinic-name lookup. `CartModal.tsx:47-49` and `SalesTracking.tsx:83-85` use the same expression.

Money is exact: Dafny `real`, with 19% as 19/100 and a commission rate r as r/100.

Code with state becomes classes with the source's fields, and their methods state the whole new state. A value written several times during one call (`loading`, `isLoading`, `uploading`, an error field) is also recorded in a ghost log, so the bracketing order is part of the contract. Remote calls become success flags or outcome parameters. `Date.now()`, `Math.random()` and `getPublicUrl` become parameters, and a navigation is a returned path.

Several facts about the code as written are stated as lemmas:

- `Auth.tsx` reads `.error` from the boolean that `login`/`signup` return, so no login error is ever shown and the sign-up success message is always set (`AuthPage.ErrorOf`, `AuthPage.AuthForm.HandleSubmit`).
- The admin guard tests `patient.role`, but the records that login and signup create have no role, so neither path reaches the admin tabs (`AdminDashboard.SessionPatientsAreNotAdmins`). A record restored from storage with a `role` property is the only way in (`AdminDashboard.AdminTabsNeedAdminRole`).
- The first QR scan on a fresh seller page gets invoice `INV-2024-007`, because the number is the log length plus 4 (`SellerDashboard.FirstScanInvoiceNumber`).
- A second chat message sent before the delayed reply arrives receives the id already promised to that reply (`Dashboard.SecondSendBeforeReplySharesId`).
- Files uploaded to storage get public `http` URLs, so they never show a delete button (`ImageUploader.UploadsOfferNoDelete`).
- Only one inventory row is critical in the page's data (`InventoryManagement.DataRowStatuses`).
- An empty first name shows the initials `UNDEFINED…` (`Dashboard.SessionInitials`).

## Model

| member | source | states |
|---|---|---|
| Seqs.Filter | src/components/webshop/CartModal.tsx:40 | `filter` keeps exactly the elements satisfying the predicate and is never longer than its input |
| Seqs.FilterAppend | src/components/webshop/CartModal.tsx:40 | `filter` distributes over concatenation, so it keeps the original order |
| Seqs.FilterAll | src/pages/InventoryManagement.tsx:81-85 | a filter whose predicate holds for every element returns the list unchanged |
| Seqs.FilterNone | src/pages/InventoryManagement.tsx:81-85 | a filter whose predicate holds for no element returns the empty list |
| Seqs.Count | src/pages/SellerDashboard.tsx:290-298 | `filter(p).length` is the length of the filtered list, at most the list's length |
| Seqs.SumRealAppend | src/components/webshop/CartModal.tsx:43-45 | a `reduce` sum of amounts over a concatenation is the sum of the two sums |
| Seqs.SumRealNonNegative | src/components/webshop/CartModal.tsx:43-45 | a sum of non-negative amounts is non-negative |
| Seqs.SumIntAppend | src/pages/InventoryManagement.tsx:87-93 | a `reduce` sum of whole numbers over a concatenation is the sum of the two sums |
| Text.ToLower | src/pages/Webshop.tsx:159-162 | `toLowerCase` keeps the length and lowers each ASCII letter in place |
| Text.ToUpper | src/pages/Dashboard.tsx:127-129 | `toUpperCase` keeps the length and raises each ASCII letter in place |
| Text.ToLowerIdempotent | src/pages/Webshop.tsx:159-162 | lower-casing twice equals lower-casing once |
| Text.Contains | src/pages/Webshop.tsx:159-162 | `includes` is true exactly when the term occurs as a slice at some position |
| Text.TrimStart | src/pages/Dashboard.tsx:102 | the result is a suffix, everything removed is white space, and it does not start with white space |
| Text.TrimEnd | src/pages/Dashboard.tsx:102 | the result is a prefix, everything removed is white space, and it does not end with white space |
| Text.TrimEmptyIff | src/pages/Dashboard.tsx:102 | `trim()` is empty exactly when every character is white space |
| Text.TrimIsSlice | src/components/admin/ImageUploader.tsx:151 | `trim()` is a slice with only white space cut on either side, and it neither starts nor ends with white space |
| Text.LastSegmentIsTextAfterLastSeparator | src/components/admin/ImageUploader.tsx:24 | `split(sep).pop()` is a separator-free suffix, preceded by the separator unless it is the whole string |
| Text.LastSegmentNoSeparator | src/components/admin/ImageUploader.tsx:24 | with no separator, `split(sep).pop()` is the whole string |
| Text.LastSegmentAfterSeparator | src/components/admin/ImageUploader.tsx:154 | after a separator, a separator-free tail is what `split(sep).pop()` returns |
| Text.DigitChar | src/pages/SellerDashboard.tsx:122 | a digit value is printed as a decimal digit character |
| Text.DigitValue | src/pages/SellerDashboard.tsx:122 | a digit character's value is below 10 and prints back as that character |
| Text.NatToString | src/pages/SellerDashboard.tsx:122 | `String(n)` is non-empty, all digits, and has no leading zero unless it is "0" |
| Text.ParseNatToString | src/pages/SellerDashboard.tsx:122 | reading `String(n)` back gives n |
| Text.ParseNatLeadingZeros | src/pages/SellerDashboard.tsx:122 | leading zeros do not change a digit string's value |
| Text.Repeat | src/pages/SellerDashboard.tsx:122 | the pad string has the requested length and consists of the pad character |
| Text.PadStart | src/pages/SellerDashboard.tsx:122 | `padStart` reaches the width (or keeps a longer string), ends with the original string and pads only with the pad character |
| Clinics.ClinicName | src/components/webshop/CartModal.tsx:47-49 | the id itself when no clinic has it; otherwise the name of the first clinic with that id when non-empty; never anything else |
| Clinics.WebshopClinicNames | src/pages/Webshop.tsx:24-29 | each webshop clinic id resolves to its own name |
| CartModal.WithoutProduct | src/components/webshop/CartModal.tsx:39-41 | removal keeps exactly the lines of other products |
| CartModal.WithQuantity | src/components/webshop/CartModal.tsx:34-36 | every line of the product gets the new quantity, in every clinic; other lines and the order are unchanged |
| CartModal.WithoutProductAppend | src/components/webshop/CartModal.tsx:39-41 | removal distributes over concatenation, so the remaining lines keep their order |
| CartModal.WithoutAbsentProduct | src/components/webshop/CartModal.tsx:39-41 | removing a product without lines changes nothing |
| CartModal.TotalPriceAppend | src/components/webshop/CartModal.tsx:43-45 | the total of Σ price × quantity is additive, and the empty cart totals 0 |
| CartModal.TotalPriceNonNegative | src/components/webshop/CartModal.tsx:43-45 | with non-negative prices and quantities the total is non-negative |
| CartModal.FilterKeepsUniqueLines | src/components/webshop/CartModal.tsx:39-41 | filtering keeps the (id, clinic) lines distinct |
| CartModal.UpdatesKeepUniqueLines | src/components/webshop/CartModal.tsx:28-41 | removal and quantity change keep the (id, clinic) lines distinct |
| CartModal.StepButtonsKeepQuantitiesPositive | src/components/webshop/CartModal.tsx:138-148 | the −/+ buttons keep every remaining quantity ≥ 1, because reaching 0 removes the product |
| CartModal.StepButtonReachesOtherClinic | src/components/webshop/CartModal.tsx:34-36 | pressing −/+ on one clinic's line changes or removes the same product's line at another clinic |
| CartModal.GroupedByClinicPartition | src/components/webshop/CartModal.tsx:51-58 | there is a group exactly for each clinic with a line, and each group is that clinic's lines in cart order |
| CartModal.GroupedByClinicKeys | src/components/webshop/CartModal.tsx:51-58 | there is a group exactly for each clinic that has a line |
| CartModal.GroupedByClinicGroups | src/components/webshop/CartModal.tsx:51-58 | the group of a clinic is that clinic's lines, in cart order |
| CartModal.LineInOwnGroup | src/components/webshop/CartModal.tsx:51-58 | every line lands in its own clinic's group and in no other |
| CartModal.Cart.constructor | src/pages/Webshop.tsx:133 | the cart starts empty |
| CartModal.Cart.RemoveFromCart | src/components/webshop/CartModal.tsx:39-41 | the new cart is the old one without the product's lines |
| CartModal.Cart.UpdateQuantity | src/components/webshop/CartModal.tsx:28-37 | quantity 0 has exactly the effect of `removeFromCart`; any other value is set on the product's lines (that distinct lines stay distinct is `UpdatesKeepUniqueLines`) |
| CartModal.Cart.Decrease | src/components/webshop/CartModal.tsx:138 | the "−" button removes the product at quantity 1 and otherwise sets quantity − 1; quantities stay ≥ 1 |
| CartModal.Cart.Increase | src/components/webshop/CartModal.tsx:147 | the "+" button sets quantity + 1 on the product's lines; quantities stay ≥ 1 |
| CartModal.Cart.HandleCheckout | src/components/webshop/CartModal.tsx:60-65 | checkout announces the old cart's total and leaves the cart empty |
| CartModal.Cart.Clear | src/components/webshop/CartModal.tsx:195 | "Golește coșul" leaves the cart empty |
| Webshop.CategoryProducts | src/pages/Webshop.tsx:159 | `products[category]` is absent exactly for an unknown key, and otherwise is the list stored under that key |
| Webshop.AllProducts | src/pages/Webshop.tsx:151-153 | a product is in the flattened catalogue exactly when some category lists it |
| Webshop.AllProductsOfPage | src/pages/Webshop.tsx:151-153 | the page's catalogue flattens to its three category lists in order, 8 products |
| Webshop.StockForClinic | src/pages/Webshop.tsx:155-157 | the clinic's stock, or 0 when the product has no entry for it |
| Webshop.PageAddButtonsEnabled | src/pages/Webshop.tsx:312 | no add button of the page is disabled at any webshop clinic |
| Webshop.CategoriesStocked | src/pages/Webshop.tsx:31-128 | every product of the three categories has non-zero stock at each of the four clinics |
| Webshop.FilteredProducts | src/pages/Webshop.tsx:159-162 | an unknown category gives []; otherwise exactly the category's products whose name or description contains the term, case-insensitively |
| Webshop.EmptySearchKeepsCategory | src/pages/Webshop.tsx:159-162 | an empty term keeps the whole category in order |
| Webshop.SearchKeepsOrder | src/pages/Webshop.tsx:159-162 | the search keeps the category's order |
| Webshop.IncrementLine | src/pages/Webshop.tsx:141-145 | the (id, clinic) line gains one unit; every other line is unchanged |
| Webshop.AddExistingIncrements | src/pages/Webshop.tsx:138-145 | adding a product already in the cart at the clinic adds one unit to that line; the length and all other lines are unchanged |
| Webshop.AddNewAppends | src/pages/Webshop.tsx:146-147 | otherwise one line with quantity 1 at the selected clinic is appended |
| Webshop.AddKeepsInvariants | src/pages/Webshop.tsx:137-149 | adding keeps the (id, clinic) lines distinct and every quantity ≥ 1 |
| Webshop.IncrementLineQuantity | src/pages/Webshop.tsx:141-145 | incrementing raises the unit count by the number of matching lines |
| Webshop.UniqueLineCount | src/pages/Webshop.tsx:138 | with distinct lines, exactly one line matches a present (id, clinic) pair |
| Webshop.AddRaisesQuantityByOne | src/pages/Webshop.tsx:137-149 | `addToCart` raises the number of units by exactly 1 |
| Webshop.WebshopPage.constructor | src/pages/Webshop.tsx:131-135 | clinic "bucuresti", category "dermato-cosmetice", empty search, empty cart |
| Webshop.WebshopPage.AddToCart | src/pages/Webshop.tsx:137-149 | the cart becomes the add-or-increment of the selected clinic's line; units +1; distinct lines and positive quantities kept |
| Webshop.WebshopPage.Listed | src/pages/Webshop.tsx:159-162 | every listed product is in the catalogue |
| InvoiceGenerator.WordTablesHaveNoDigits | src/components/webshop/InvoiceGenerator.tsx:14-21 | the four word tables have 10 entries and no digits, and their used entries are non-empty |
| InvoiceGenerator.NumberToWordsBelowTwenty | src/components/webshop/InvoiceGenerator.tsx:18-23 | 0 is "zero", 1..9 the unit word, 10..19 the teen word |
| InvoiceGenerator.NumberToWordsTens | src/components/webshop/InvoiceGenerator.tsx:24 | 20..99 is the tens word, followed by " și " and the unit word exactly when the last digit is not 0 |
| InvoiceGenerator.NumberToWordsHundreds | src/components/webshop/InvoiceGenerator.tsx:25-29 | 100..999 is the hundreds word, followed by " " and the words of n mod 100 exactly when that is not 0 |
| InvoiceGenerator.NumberToWordsBelowThousand | src/components/webshop/InvoiceGenerator.tsx:13-30 | below 1000 the result is non-empty words without digits |
| InvoiceGenerator.NumberToWordsRegimes | src/components/webshop/InvoiceGenerator.tsx:13-32 | the result is never empty and has no digits exactly below 1000; from 1000 on it is the decimal digits, which read back as n |
| InvoiceGenerator.Edited | src/components/webshop/InvoiceGenerator.tsx:81-90 | a name edit changes only the name; a quantity or price edit sets that field and makes the total quantity × price |
| InvoiceGenerator.AmountsRelation | src/components/webshop/InvoiceGenerator.tsx:58-61 | total = 119% of subtotal, and commission = total × rate / 100, i.e. also taken on the TVA |
| InvoiceGenerator.SubtotalIsSumOfProducts | src/components/webshop/InvoiceGenerator.tsx:58 | with consistent totals the subtotal is Σ quantity × price |
| InvoiceGenerator.SomeNameEmpty | src/components/webshop/InvoiceGenerator.tsx:444 | `items.some(item => !item.name)` holds exactly when some item name is empty |
| InvoiceGenerator.GenerateEnabled | src/components/webshop/InvoiceGenerator.tsx:444 | the generate button is enabled exactly when the customer name and every item name are non-empty |
| InvoiceGenerator.InvoiceForm.constructor | src/components/webshop/InvoiceGenerator.tsx:49-56 | empty customer fields, card payment, no preview, one consistent item |
| InvoiceGenerator.InvoiceForm.AddItem | src/components/webshop/InvoiceGenerator.tsx:77-79 | appends an empty item with quantity 1 and total 0; the list stays valid |
| InvoiceGenerator.InvoiceForm.UpdateItem | src/components/webshop/InvoiceGenerator.tsx:81-90 | only the indexed item changes, to its edited form; the totals stay consistent |
| InvoiceGenerator.InvoiceForm.RemoveItem | src/components/webshop/InvoiceGenerator.tsx:92-94 | deletes exactly the indexed item and keeps the totals consistent |
| InvoiceGenerator.InvoiceForm.ClickRemove | src/components/webshop/InvoiceGenerator.tsx:379 | removal happens only when more than one item is left, so the list never becomes empty |
| InvoiceGenerator.InvoiceForm.Amounts | src/components/webshop/InvoiceGenerator.tsx:58-61 | the TVA is 19% of the subtotal and the total is subtotal + TVA, i.e. 119% of the subtotal; the commission is the total times the rate / 100 |
| InvoiceGenerator.InvoiceForm.GenerateInvoice | src/components/webshop/InvoiceGenerator.tsx:63-65 | generating shows the preview |
| InventoryManagement.GetStockStatus | src/pages/InventoryManagement.tsx:74-79 | out iff 0; critical iff ≤ min/2; low iff in (min/2, min]; ok iff above min; the branches are tried in order |
| InventoryManagement.StatusThresholds | src/pages/InventoryManagement.tsx:74-79 | for positive stock: ok iff above min, critical iff 2 × stock ≤ min |
| InventoryManagement.StatusMonotone | src/pages/InventoryManagement.tsx:74-79 | more stock never gives a more severe status |
| InventoryManagement.MinOf | src/pages/InventoryManagement.tsx:213 | `Math.min` returns an element that is at most every element |
| InventoryManagement.WorstStock | src/pages/InventoryManagement.tsx:213 | the worst stock is one of the four clinic stocks and at most each of them |
| InventoryManagement.RowStatusIsWorst | src/pages/InventoryManagement.tsx:213-252 | the row status is at least as severe as every per-clinic badge |
| InventoryManagement.DataRowStatuses | src/pages/InventoryManagement.tsx:20-61 | in the page's data, only the first product is critical and the other three are low |
| InventoryManagement.FilteredInventory | src/pages/InventoryManagement.tsx:81-85 | "all" keeps everything; a clinic keeps exactly the items with a stock key for it |
| InventoryManagement.FilterKeepsEverythingForAClinic | src/pages/InventoryManagement.tsx:81-85 | each of the four clinics keeps the whole list; any other non-"all" value keeps nothing |
| InventoryManagement.ClinicSales | src/pages/InventoryManagement.tsx:365 | the first matching row's sales, or 0 when no row matches |
| InventoryManagement.TotalsAppend | src/pages/InventoryManagement.tsx:87-93 | both totals are additive over concatenation |
| InventoryManagement.DataTotals | src/pages/InventoryManagement.tsx:87-93 | 68 sales and 1413 commission; the four clinic bars add up to the total |
| InventoryManagement.RotationIsClinicSum | src/pages/InventoryManagement.tsx:397 | rotation is the sum of the four weekly clinic sales, and with non-negative sales at least each of them |
| SalesTracking.FilteredSales | src/components/webshop/SalesTracking.tsx:62-65 | "all" keeps every sale; otherwise exactly the sales of the selected clinic |
| SalesTracking.FilteredSalesAppend | src/components/webshop/SalesTracking.tsx:62-65 | the filter keeps the original order |
| SalesTracking.TotalSalesIsMaskedSum | src/components/webshop/SalesTracking.tsx:67 | the total-sales card is the sum over all sales of the prices shown under the selection |
| SalesTracking.Upsert | src/components/webshop/SalesTracking.tsx:70-74 | adds the amount to the employee's existing entry, or appends a new entry; names stay distinct |
| SalesTracking.SalesByEmployee | src/components/webshop/SalesTracking.tsx:70-74 | the accumulator has distinct names and is non-empty when a sale is shown |
| SalesTracking.SalesByEmployeeSnoc | src/components/webshop/SalesTracking.tsx:70-74 | one more shown sale upserts its employee and price into the accumulator built so far |
| SalesTracking.UpsertKeys | src/components/webshop/SalesTracking.tsx:71 | after `acc[name] = ...` the keys are the old ones plus `name` |
| SalesTracking.EmployeeSumSnoc | src/components/webshop/SalesTracking.tsx:70-74 | appending a sale adds its price to its employee's sum only |
| SalesTracking.EmployeeSumUnsold | src/components/webshop/SalesTracking.tsx:70-74 | an employee with no shown sale sums to 0 |
| SalesTracking.SalesByEmployeeNames | src/components/webshop/SalesTracking.tsx:70-74 | the accumulator has an entry exactly for the employees of the shown sales |
| SalesTracking.SalesByEmployeeSums | src/components/webshop/SalesTracking.tsx:70-74 | each entry holds its employee's summed prices |
| SalesTracking.FirstMaxIndex | src/components/webshop/SalesTracking.tsx:75 | the head of the stable descending sort is the first entry with the largest sum |
| SalesTracking.TopEntry | src/components/webshop/SalesTracking.tsx:75 | there is a top entry exactly when a sale is shown |
| SalesTracking.TopSeller | src/components/webshop/SalesTracking.tsx:69-77 | "N/A" without shown sales |
| SalesTracking.TopSellerIsBest | src/components/webshop/SalesTracking.tsx:69-77 | with shown sales, the top seller made one of them and no employee's sum exceeds theirs |
| SalesTracking.MockSalesReport | src/components/webshop/SalesTracking.tsx:29-60 | over the page's records: 1009 in sales, 40.45 in commission, top seller Dr. Radu Georgescu |
| SalesTracking.MockSalesEntries | src/components/webshop/SalesTracking.tsx:29-60 | over the page's records the accumulator is Dr. Maria Popescu 320, As. Ana Ionescu 189, Dr. Radu Georgescu 500, in that order |
| SellerAuthContext.FindSeller | src/contexts/SellerAuthContext.tsx:86 | none exactly when no seller has the e-mail; otherwise the first seller with it |
| SellerAuthContext.MockSellerLookupIsExact | src/contexts/SellerAuthContext.tsx:33-64 | the mock e-mails are pairwise distinct, and each finds its own seller |
| SellerAuthContext.MockSellerCommissionConsistent | src/contexts/SellerAuthContext.tsx:33-64 | totalCommission × 100 = totalSales × commission for every mock seller |
| SellerAuthContext.SellerAuthProvider.IsAuthenticated | src/contexts/SellerAuthContext.tsx:106 | authenticated exactly when a seller is set |
| SellerAuthContext.SellerAuthProvider.constructor | src/contexts/SellerAuthContext.tsx:67-68 | no seller, loading |
| SellerAuthContext.SellerAuthProvider.Mount | src/contexts/SellerAuthContext.tsx:70-77 | restores a stored seller and clears loading |
| SellerAuthContext.SellerAuthProvider.Login | src/contexts/SellerAuthContext.tsx:79-97 | succeeds exactly for a mock e-mail with a password of ≥ 6 characters; success signs in and stores that seller; failure changes nothing; loading goes true then false |
| SellerAuthContext.SellerAuthProvider.Logout | src/contexts/SellerAuthContext.tsx:99-102 | no seller and an empty slot, whatever the old state (idempotent) |
| SellerAuthContext.LoginSignsInOwner | src/contexts/SellerAuthContext.tsx:86-92 | each mock seller's e-mail with a long enough password logs in exactly that seller |
| SellerDashboard.Gate | src/pages/SellerDashboard.tsx:102-105 | without a seller the page goes to /seller-login, and only then |
| SellerDashboard.TypeLabel | src/pages/SellerDashboard.tsx:127-134 | an unknown type is shown unchanged |
| SellerDashboard.TypeVariant | src/pages/SellerDashboard.tsx:136-143 | any type other than online and in-store gets "default" |
| SellerDashboard.KnownTypeMappings | src/pages/SellerDashboard.tsx:127-143 | "qr", "online" and "in-store" are shown as "QR Code", "Online" and "În clinică" with the badges default, secondary and outline |
| SellerDashboard.TypeLabelsDistinguishTypes | src/pages/SellerDashboard.tsx:127-143 | the three types get pairwise different labels and variants, and no label is a type code |
| SellerDashboard.InvoiceNumberRoundTrip | src/pages/SellerDashboard.tsx:122 | an invoice number is the prefix plus at least three digits, which read back as the number |
| SellerDashboard.InvoiceNumberOneDigit | src/pages/SellerDashboard.tsx:122 | a one-digit number is padded with two zeros |
| SellerDashboard.InvoiceNumberInjective | src/pages/SellerDashboard.tsx:122 | different numbers give different invoice numbers |
| SellerDashboard.CountsAddUp | src/pages/SellerDashboard.tsx:290-316 | the three type counts and the two payment counts each add up to the number of sales |
| SellerDashboard.QrSale | src/pages/SellerDashboard.tsx:114-123 | a scanned sale has commission = price × rate / 100, type qr, payment card, and an invoice number carrying log length + 4 |
| SellerDashboard.MockSalesValid | src/pages/SellerDashboard.tsx:35-66 | the initial log's invoice numbers are well formed, distinct and below its length + 4 |
| SellerDashboard.NumberedInvoicesValid | src/pages/SellerDashboard.tsx:35-66 | a log numbered 1, 2, ... in order satisfies the invoice invariant |
| SellerDashboard.PrependKeepsInvoicesValid | src/pages/SellerDashboard.tsx:112-125 | prepending a sale numbered with the log length + 4 keeps the invariant and its number differs from every earlier one |
| SellerDashboard.SellerDashboardPage.constructor | src/pages/SellerDashboard.tsx:100 | the log starts as the mock sales and satisfies the invoice invariant |
| SellerDashboard.SellerDashboardPage.HandleProductFound | src/pages/SellerDashboard.tsx:112-125 | prepends exactly one QR sale with the old sales after it; its invoice number is new; the commission card grows by its commission |
| SellerDashboard.FirstScanInvoiceNumber | src/pages/SellerDashboard.tsx:122 | the first scan on a fresh page gets INV-2024-007 |
| SellerDashboard.MockInvoiceNumbers | src/pages/SellerDashboard.tsx:35-66 | the initial sales carry invoice numbers 1, 2 and 3 |
| AuthContext.MockPatient | src/contexts/AuthContext.tsx:61-69 | the login record carries the given e-mail and no role |
| AuthContext.NewPatient | src/contexts/AuthContext.tsx:86-95 | the signup record copies e-mail, names, phone and birth date, has no role, and its id reads back as the timestamp |
| AuthContext.AuthProvider.IsAuthenticated | src/contexts/AuthContext.tsx:108 | authenticated exactly when a patient is set |
| AuthContext.AuthProvider.constructor | src/contexts/AuthContext.tsx:41-42 | no patient, loading |
| AuthContext.AuthProvider.Mount | src/contexts/AuthContext.tsx:44-51 | restores a stored patient and clears loading |
| AuthContext.AuthProvider.Login | src/contexts/AuthContext.tsx:53-78 | succeeds exactly for a non-empty e-mail with a password of ≥ 6 characters; success signs in and stores the mock record; failure changes nothing; loading goes true then false |
| AuthContext.AuthProvider.Signup | src/contexts/AuthContext.tsx:80-99 | always succeeds without a password check, signing in and storing the new record; loading goes true then false |
| AuthContext.AuthProvider.Logout | src/contexts/AuthContext.tsx:101-104 | no patient and an empty slot, whatever the old state (idempotent) |
| AdminDashboard.AccessDecision | src/pages/AdminDashboard.tsx:23-48 | wait iff loading; /auth iff no patient; / iff role ≠ admin; grant iff role = admin |
| AdminDashboard.SessionPatientsAreNotAdmins | src/pages/AdminDashboard.tsx:36 | the records made by login and signup are both sent to / |
| AdminDashboard.AdminDashboardPage.constructor | src/pages/AdminDashboard.tsx:19-20 | not admin, checking |
| AdminDashboard.AdminDashboardPage.CheckAdminAccess | src/pages/AdminDashboard.tsx:23-48 | navigates exactly on a redirect decision; only a grant sets isAdmin and clears checkingAuth |
| AdminDashboard.AdminDashboardPage.Render | src/pages/AdminDashboard.tsx:53-63 | spinner iff loading or checking; admin tabs iff not loading, not checking and admin |
| AdminDashboard.AdminTabsNeedAdminRole | src/pages/AdminDashboard.tsx:53-63 | the admin tabs are shown only after a grant to a patient whose role is admin |
| AuthPage.ErrorOf | src/pages/Auth.tsx:41 | `.error` of the boolean result is always absent |
| AuthPage.RedirectTarget | src/pages/Auth.tsx:28-32 | navigates to /dashboard exactly when authenticated |
| AuthPage.AuthForm.constructor | src/pages/Auth.tsx:13-23 | login mode, all fields and messages empty |
| AuthPage.AuthForm.Payload | src/pages/Auth.tsx:55-62 | the sign-up payload carries the six form fields |
| AuthPage.AuthForm.HandleSubmit | src/pages/Auth.tsx:34-70 | error cleared first and every later write logged; a login never shows an error and leaves the provider signed in to the mock record exactly when accepted, otherwise with the old session; mismatch before short password, each leaving the provider untouched; otherwise all six fields forwarded, the new record signed in and stored, and success shown; authenticated afterwards redirects to /dashboard |
| LoginPage.LoginForm.constructor | src/pages/Login.tsx:13-31 | not loading, all fields empty |
| LoginPage.LoginForm.HandleLogin | src/pages/Login.tsx:33-61 | empty fields give a toast and leave the provider and isLoading untouched; otherwise login is called between isLoading true and false; success signs in and stores the mock record and navigates to /dashboard, a rejection keeps the old session and slot |
| LoginPage.LoginForm.Payload | src/pages/Login.tsx:85-92 | the sign-up payload carries the six form fields, without the confirmation |
| LoginPage.LoginForm.HandleSignup | src/pages/Login.tsx:63-108 | mismatch before short password, each stopping with the provider and isLoading untouched; otherwise signup between isLoading true and false signs in and stores the new record, then /dashboard |
| ProductsManager.FormOf | src/components/admin/ProductsManager.tsx:91-103 | the edit form copies the row, with null description/image as '' and null original price as 0 |
| ProductsManager.Submitted | src/components/admin/ProductsManager.tsx:111-115 | the submitted original price is the form value exactly when it is > 0, null otherwise; other fields copied |
| ProductsManager.EditRoundTrip | src/components/admin/ProductsManager.tsx:91-115 | an unchanged edit keeps a null or positive original price, nulls a non-positive one, and turns null description/image into '' |
| ProductsManager.CategoryLabel | src/components/admin/ProductsManager.tsx:178-180 | the raw value when no category matches; the first match's label when it is non-empty; never anything but the value or a matching label |
| ProductsManager.CategoryLabels | src/components/admin/ProductsManager.tsx:28-32 | the three categories get their labels; any other value is shown as it is |
| ProductsManager.StrikethroughOfSubmitted | src/components/admin/ProductsManager.tsx:407 | a stored row shows the struck-through price exactly when the form's original price exceeded the price |
| ProductsManager.StoredRow | src/components/admin/ProductsManager.tsx:15-26 | the stored row carries the id and the submitted prices, description and image |
| ProductsManager.ProductsEditor.constructor | src/components/admin/ProductsManager.tsx:35-49 | no products, loading, dialog closed, nothing edited, empty form |
| ProductsManager.ProductsEditor.FetchProducts | src/components/admin/ProductsManager.tsx:56-74 | on success the list becomes the rows (or [] for null data); on error it is kept; loading is cleared |
| ProductsManager.ProductsEditor.ResetForm | src/components/admin/ProductsManager.tsx:76-89 | the form is the defaults and nothing is edited |
| ProductsManager.ProductsEditor.OpenEditDialog | src/components/admin/ProductsManager.tsx:91-105 | the row is edited, the form is its mapping, and the dialog is open |
| ProductsManager.ProductsEditor.SubmitRequest | src/components/admin/ProductsManager.tsx:117-140 | an update of the edited row's id exactly when a row is edited, otherwise an insert, both of the submitted data |
| ProductsManager.ProductsEditor.HandleSubmit | src/components/admin/ProductsManager.tsx:107-152 | sends that request; success closes the dialog and resets the form; failure changes nothing |
| ProductsManager.ProductsEditor.HandleDelete | src/components/admin/ProductsManager.tsx:154-176 | sends a delete of that id |
| ImageUploader.FileExtIsTextAfterLastDot | src/components/admin/ImageUploader.tsx:24 | the extension is the text after the last '.', or the whole name without a '.' |
| ImageUploader.StoredName | src/components/admin/ImageUploader.tsx:25 | the storage name starts with the random part and a dash |
| ImageUploader.StoredNameKeepsExtension | src/components/admin/ImageUploader.tsx:24-25 | the storage name has the original file's extension |
| ImageUploader.UploadEntry | src/components/admin/ImageUploader.tsx:25-41 | an uploaded file's entry has the storage name and that name's public URL |
| ImageUploader.BatchEntries | src/components/admin/ImageUploader.tsx:22-43 | a batch adds one entry per file |
| ImageUploader.BatchEntriesFollowFiles | src/components/admin/ImageUploader.tsx:22-43 | entry i carries file i's extension, the i-th random prefix and its public URL |
| ImageUploader.UrlName | src/components/admin/ImageUploader.tsx:154 | a non-empty name without '/': "external-image" for a URL ending in '/', else the text after the last '/' |
| ImageUploader.ImageLibrary.constructor | src/components/admin/ImageUploader.tsx:12-13 | not uploading, no images |
| ImageUploader.ImageLibrary.HandleFileUpload | src/components/admin/ImageUploader.tsx:16-58 | succeeds exactly when every upload does; success appends the batch's entries in file order; failure leaves the list; uploading goes true then false |
| ImageUploader.ImageLibrary.DeleteImage | src/components/admin/ImageUploader.tsx:68-89 | after a successful removal, exactly the entries with other names remain in order; after a failure, nothing changes |
| ImageUploader.ImageLibrary.AddByUrl | src/components/admin/ImageUploader.tsx:148-162 | an input that trims to nothing changes nothing; otherwise one entry with the trimmed URL is appended and the field cleared |
| ImageUploader.UploadsOfferNoDelete | src/components/admin/ImageUploader.tsx:234 | with http public URLs, no uploaded entry offers a delete button |
| ImageUploader.UrlNameExamples | src/components/admin/ImageUploader.tsx:172 | a path's last segment is the name; a trailing '/' gives "external-image" |
| Dashboard.Gate | src/pages/Dashboard.tsx:40-53 | only the login prompt without a patient |
| Dashboard.GateFollowsSession | src/pages/Dashboard.tsx:40-53 | the dashboard is shown exactly to an authenticated session |
| Dashboard.PatientMessage | src/pages/Dashboard.tsx:104-111 | the patient message has id = history length + 1 and the untrimmed text |
| Dashboard.Reply | src/pages/Dashboard.tsx:114-122 | the reply has id = length at send + 2 |
| Dashboard.ExchangeKeepsIds | src/pages/Dashboard.tsx:101-125 | a send followed by its reply keeps messages numbered by position |
| Dashboard.SecondSendBeforeReplySharesId | src/pages/Dashboard.tsx:105-116 | a second send before the reply arrives takes the reply's id |
| Dashboard.ChatPanel.constructor | src/pages/Dashboard.tsx:30-38 | the greeting is message 1 and the input is empty |
| Dashboard.ChatPanel.HandleSendMessage | src/pages/Dashboard.tsx:101-125 | a blank input changes nothing; otherwise the message is appended, the input cleared, and the reply scheduled |
| Dashboard.ChatPanel.DeliverReply | src/pages/Dashboard.tsx:121 | the reply is appended to the history as it is by then |
| Dashboard.FirstInTemplate | src/pages/Dashboard.tsx:128 | `${s[0]}` is the first character, or "undefined" for an empty string |
| Dashboard.InitialsOfNames | src/pages/Dashboard.tsx:127-129 | the initials are the two upper-cased first letters; an empty first name gives "UNDEFINED" |
| Dashboard.UpperUndefined | src/pages/Dashboard.tsx:127-129 | the text "undefined" that an empty first name puts into the template upper-cases to "UNDEFINED" |
| Dashboard.SessionInitials | src/pages/Dashboard.tsx:127-129 | the mock patient shows "IP"; a sign-up with an empty first name shows "UNDEFINED" |

## Left out

- Display formatting is not modelled: `toFixed`, `toLocaleString`, `toLocaleDateString`, `Intl` currency formatting, and the rounded discount percentage (`Webshop.tsx:264`).
- Floating point is not modelled. Amounts are exact reals, so rounding in `0.19`, in commission rates and in the `/ 100` is not reproduced.
- Timers are not modelled as delays.
  - The 1000 ms delays in both contexts are atomic steps.
  - The 1500 ms chat reply is the gap between `HandleSendMessage` and `DeliverReply`.
  - Unmount and cancellation are not modelled.
- `Date.now()`, `Math.random()` and the formatted current date are parameters. Message timestamps and sale timestamps are not kept.
- `localStorage` and JSON are not modelled. The storage slot is an optional record field. Malformed JSON in the slot is not modelled.
- React rendering, toasts and the `useAuth`/`useSellerAuth` provider checks are not modelled. A navigation is a returned path.
- Remote database and storage calls (select, insert, update, delete, upload, remove, `getPublicUrl`) are reduced to success flags, outcome parameters or a function parameter. The refetch after a product submit or delete is a separate `FetchProducts` call.
- Uploaded file contents are not modelled; only the file name is.
- Input parsing is not modelled: the forms' `parseInt(...) || 0` and `parseFloat(...) || 0` arrive as already-parsed numbers.
- Case mapping covers ASCII only. Non-ASCII letters keep their case in `toLowerCase`/`toUpperCase`, which differs from JavaScript for letters such as "Ș".
- Strings are sequences of Unicode scalar values, not UTF-16 code units. `length`, indexing and `s[0]` differ for characters outside the Basic Multilingual Plane.
- InvoiceGenerator.NumberToWords: modelled over whole numbers only. The page calls it on the VAT-inclusive total, which is usually fractional, and `Math.floor`, `%` and `toString` on fractions are not modelled.
- InventoryManagement.FilteredInventory: only the four clinic keys are stock keys. Inherited object properties such as `toString` are not modelled.
- SalesTracking.FirstMaxIndex: the sort is reduced to the head of a stable descending sort. The ordering of integer-like keys by `Object.entries` is not modelled, because the accumulator keys are employee names.
- The selected period of `SalesTracking.tsx` is not modelled. It is never read, so it has no effect on any figure.
- The hard-coded "3" on the critical-stock card of `InventoryManagement.tsx` is not modelled. The card displays a constant and computes nothing. `InventoryManagement.DataRowStatuses` shows that the data has one critical row.
- ImageUploader.UrlName: the trailing-'/' rule is stated in one direction only. A URL that ends in "external-image" also yields that name.
- SellerDashboard.TypeLabel, SellerDashboard.TypeVariant: the contracts state only the fallback. The three known mappings are stated by `SellerDashboard.KnownTypeMappings`, and that they tell the types apart by `SellerDashboard.TypeLabelsDistinguishTypes`.
- The QR scanner, the doctors manager, the admin statistics, the generated database types, the route table, the seller login page and the static marketing pages are not part of this model. They are a timed random simulation, thin remote wrappers, or layout.
