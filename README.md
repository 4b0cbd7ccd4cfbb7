# BistroGest Gabon — a verified model of the till, the stock and the back office

BistroGest Gabon is a point-of-sale app for bars and small restaurants. This project models its
logic in Dafny and proves what that logic guarantees. The logic sits in the React component
handlers, and the model covers the following:

- **The counter (`POS`).** A cart maps product ids to quantities, and adding is capped by the
  product's stock. There are remove, delete and clear operations, and a pending order can be
  loaded into the cart. The model covers the integer cart total and item count, and the sale
  a checkout builds. That sale copies the current price and cost into each line and gets a
  `CMD-NNN` ticket number.
- **The commit (`App`).** The store id is stamped on the sale and the sale is persisted in
  the sales table. Each product named by a line loses the first such line's quantity, and the
  updated products are written back to the product table. The sale goes first in the history.
  The app object keeps its in-memory lists equal to the product, sale and staff tables of the
  local database (`LocalDb`). For products and staff this holds with the corrected update
  handlers; as written they empty the table when a screen passes an updater (see Findings). It also covers the pending-order filter, the subscription
  upgrade and the 30-day trial licence.
- **The table-side menu (`DigitalMenu`).** A second cart with no stock cap. Its guarded submit
  produces a `PENDING` order.
- **Crate deposits (`Consignes`).** Empty and full SOBRAGA crate counters that never go below
  zero, with the 12-empties-for-1-crate exchange.
- **The stock screen (`Inventory`).** Low-stock and search filters, delete, and
  save-or-append. Category administration refuses duplicate names and categories still in use.
- **Staff administration (`SettingsScreen`, `StaffManagement`).**
  - Accounts and defaults:
    - the console refuses a username already taken;
    - an edit keeps status, sales and ratings;
    - a new account gets the default ratings.
  - Account actions: toggle and delete.
  - Ratings: the enterprise-only star ratings, always within 1..5.
  - Back-up and reset: the clear-and-refill back-up import, and the `EFFACER`-guarded reset.
- **Sign-in (`Login`).** The owner code, with `123456` as the fallback. Staff sign in by
  username ignoring case, exact access code and active account.
- **Sales history (`SalesHistory`).** The search filter, the report total, the expand toggle
  and the CSV export. The export is proved to read back, line by line and cell by cell.
- **The owner's monitor (`OwnerMonitor`).** Quantities sold per product name, built by a
  nested loop, the top-5 ranking, and today's total and count.
- **The dashboard (`Dashboard`).** Gross sales, the stock value at cost and the monthly fixed
  charges, plus the daily bar compared with charges / 30.

Shared pieces:

- `Cart` holds the cart association list (JavaScript object semantics: an existing key keeps
  its place, a new one goes last).
- `Seqs` holds a filter with its subsequence and multiset facts.
- `Text` holds the string functions the screens use: lowercasing, trimming, `join`, `split`,
  decimal numerals and `padStart`.
- `Types` holds the records of the data model.

Amounts of money are integers (FCFA). Ids, timestamps and calendar days are opaque inputs, and
the clock value is a parameter.

## Model

| member | source | states |
|---|---|---|
| Types.FindProduct | components/POS.tsx:64 | the first product with the id, or none exactly when no product has it |
| Types.SalesTotalAppend | components/Dashboard.tsx:53 | the sum of totals over two runs of sales is the sum of the two sums |
| Text.Lower | components/Inventory.tsx:40 | ASCII capitals become their small letters, characters outside the ASCII and Latin-1 capitals are kept, and the length is kept (narrower than `toLowerCase`, see Left out) |
| Text.LowerIdempotent | components/Login.tsx:47 | lowercasing twice is lowercasing once |
| Text.TrimStart | components/Inventory.tsx:96 | a suffix that starts with a non-blank or is empty; only blanks were dropped |
| Text.TrimEnd | components/Inventory.tsx:96 | a prefix that ends with a non-blank or is empty; only blanks were dropped |
| Text.TrimEmptyIff | components/Inventory.tsx:96 | the trimmed text is empty exactly when every character is blank |
| Text.IndexOf | components/SalesHistory.tsx:61 | the first position of a character that occurs |
| Text.Split | components/SalesHistory.tsx:61 | at least one piece |
| Text.SplitJoin | components/SalesHistory.tsx:61-63 | splitting a join of separator-free pieces gives the pieces back |
| Text.JoinAvoids | components/SalesHistory.tsx:63 | a join holds a character other than the separator only if some piece does |
| Text.NatToString | components/POS.tsx:110 | a non-empty numeral of decimal digits denoting the number, with no leading zero except for 0 |
| Text.Repeat | components/POS.tsx:110 | n copies of the character |
| Text.PadStart | components/POS.tsx:110 | left padding to the width: the pad, then the original text |
| Text.LeadingZeros | components/POS.tsx:110 | leading zeros do not change a numeral's value |
| Text.AllZeros | components/POS.tsx:110 | a string of zeros has value 0 |
| Seqs.Filter | components/Inventory.tsx:39-43 | exactly the elements passing the test are kept, in their original order |
| Seqs.FilterCounts | components/Inventory.tsx:47 | each element occurs as often as in the input when it passes, else not at all |
| Seqs.FilterAll | components/SalesHistory.tsx:28-37 | a filter everything passes returns the list unchanged |
| Seqs.FilterSplitsLength | components/OwnerMonitor.tsx:36 | a filter and its complement together have the length of the list |
| Cart.ConsFacts | components/POS.tsx:44 | keys, key test and distinctness of a cart relate to those of its tail |
| Cart.DistinctTail | components/POS.tsx:44 | the tail of a distinct-keyed cart is distinct and lacks the head's key |
| Cart.DistinctCons | components/POS.tsx:44 | a fresh key in front of a distinct-keyed cart keeps it distinct |
| Cart.Put | components/POS.tsx:66 | only the written key's quantity changes; a known key keeps its place, a new one goes last |
| Cart.PutHas | components/POS.tsx:66 | after a write the keys are the old keys plus the written one |
| Cart.Remove | components/POS.tsx:78-84 | the key goes, every other quantity is unchanged, and the cart shrinks by one line if it held the key |
| Cart.Increment | components/DigitalMenu.tsx:44-46 | the id reads one more, every other quantity is unchanged, and the id becomes a key |
| Cart.Decrement | components/POS.tsx:69-76 | the id reads one less when it was above 1 and is deleted otherwise; the other keys and quantities are unchanged; also components/DigitalMenu.tsx:48-55 |
| Cart.Total | components/POS.tsx:98-101 | definition with no contract of its own; what a write or delete does to it is proved in Cart.TotalPut and Cart.TotalRemove |
| Cart.Count | components/POS.tsx:105 | definition with no contract of its own (also components/DigitalMenu.tsx:58); proved in Cart.CountPut, Cart.CountRemove and Cart.CountZeroIffEmpty |
| Cart.Cost | components/POS.tsx:128 | definition with no contract of its own; Cart.ItemsMatchCart proves the sale lines' cost equals it |
| Cart.QtyAbsent | components/POS.tsx:65 | an absent key reads as quantity 0 (`cart[id] \|\| 0`) |
| Cart.TotalPut | components/POS.tsx:98-101 | writing a quantity moves the total by exactly that line's value difference |
| Cart.TotalRemove | components/POS.tsx:98-101 | deleting a key takes exactly its line's value off the total |
| Cart.CountPut | components/POS.tsx:105 | writing a quantity moves the item count by the quantity difference |
| Cart.CountRemove | components/POS.tsx:105 | deleting a key takes its quantity off the item count |
| Cart.PutPositive | components/POS.tsx:66 | writing a positive quantity keeps every quantity positive |
| Cart.QtyNonNegative | components/POS.tsx:65 | with positive lines no quantity read is negative |
| Cart.RemovePositive | components/POS.tsx:72-73 | deleting keeps every remaining quantity positive |
| Cart.CountZeroIffEmpty | components/POS.tsx:179 | with positive lines the item count is zero exactly when the cart is empty |
| Cart.ToItems | components/POS.tsx:113-123 | one line per cart entry with the product's current name, category, price and cost; otherwise an error naming a cart id with no product |
| Cart.ItemsMatchCart | components/POS.tsx:124-130 | the lines' stated total and cost equal the cart total and cost |
| POS.OrderNumberDenotes | components/POS.tsx:110 | `CMD-` then at least three digits denoting the number |
| POS.OrderNumber | components/POS.tsx:110 | definition with no contract of its own; its format and injectivity are proved in POS.OrderNumberDenotes and POS.OrderNumberInjective |
| POS.OrderNumberInjective | components/POS.tsx:110 | distinct sale counts give distinct ticket numbers |
| POS.VatSplit | components/POS.tsx:124-125 | the tax-free part plus the tax is the total |
| POS.VatSplitInverts | components/POS.tsx:124-125 | the tax-free part times (1 + rate/100) is the total; a zero rate gives no tax |
| POS.CreateSale | components/POS.tsx:107-136 | lines from the cart, total and cost from the cart, the ticket number from the count, cash and success, `waiterName \|\| managerName` |
| POS.MakeTicket | components/POS.tsx:139-149 | nothing is built exactly when the total is 0; otherwise the sale that createSaleObject builds |
| POS.AddWithinStock | components/POS.tsx:63-67 | a no-op for an unknown product or a full line; otherwise exactly one more of that id |
| POS.ApplyWithinStock | components/POS.tsx:63-84 | each cart action keeps every line within its product's stock |
| POS.RunWithinStock | components/POS.tsx:65 | any sequence of actions keeps the cart within stock |
| POS.EmptyCartWithinStock | components/POS.tsx:65 | from an empty cart no line ever exceeds its product's stock |
| POS.NamesSnoc | components/POS.tsx:88 | an item list names a product iff its prefix or its last item does |
| POS.FromItems | components/POS.tsx:87-88 | keys are exactly the products named; each holds the last quantity given for it |
| POS.LastQtyIsLast | components/POS.tsx:88 | the last item naming a product decides its quantity |
| POS.PosSession.constructor | components/POS.tsx:44-52 | empty cart, empty customer and table, the manager as waiter |
| POS.PosSession.AddToCart | components/POS.tsx:63-67 | the cart becomes the stock-capped addition |
| POS.PosSession.RemoveFromCart | components/POS.tsx:69-76 | one fewer, the key dropping when the quantity was 1 or less |
| POS.PosSession.DeleteFromCart | components/POS.tsx:78-84 | the key is deleted, the rest unchanged |
| POS.PosSession.ClearCart | components/POS.tsx:178 | a confirmed clear empties the cart |
| POS.PosSession.SetDetails | components/POS.tsx:50-52 | the customer, table and waiter inputs |
| POS.PosSession.LoadPendingOrder | components/POS.tsx:86-93 | the cart from the items; customer and table copied; waiter or manager; the order id handed on |
| POS.PosSession.PrintDraft | components/POS.tsx:139-143 | the draft ticket; nothing when the total is 0; no state changes |
| POS.PosSession.Checkout | components/POS.tsx:145-160 | a zero total changes nothing; a built sale resets cart, customer, table and waiter |
| DigitalMenu.MenuListing | components/DigitalMenu.tsx:36-42 | a product is listed iff its name matches, its category matches or is `Tous`, and it is in stock |
| DigitalMenu.IsFormValid | components/DigitalMenu.tsx:88 | trimmed name of at least 2 characters (code points, see Left out) and non-empty trimmed table |
| DigitalMenu.ValidFormPassesGuard | components/DigitalMenu.tsx:67-88 | an enabled button implies the handler's own guard passes |
| DigitalMenu.WaiterOf | components/DigitalMenu.tsx:73 | the trimmed waiter name, absent when blank |
| DigitalMenu.BuildOrder | components/DigitalMenu.tsx:66-81 | refused on empty name, table or cart; otherwise a `PENDING` order of the cart's lines with the cart total |
| DigitalMenu.MenuSession.constructor | components/DigitalMenu.tsx:28-31 | empty cart and inputs, no confirmation shown |
| DigitalMenu.MenuSession.AddToCart | components/DigitalMenu.tsx:44-46 | exactly one more of the id, with no stock cap |
| DigitalMenu.MenuSession.RemoveFromCart | components/DigitalMenu.tsx:48-55 | one fewer, the key dropping at quantity 1 or less |
| DigitalMenu.MenuSession.SetDetails | components/DigitalMenu.tsx:29-31 | the name, table and waiter inputs |
| DigitalMenu.MenuSession.SubmitOrder | components/DigitalMenu.tsx:66-86 | the order built from the state; the confirmation opens on submission; the cart stays |
| DigitalMenu.MenuSession.DismissConfirmation | components/DigitalMenu.tsx:105-108 | the cart empties and the confirmation closes |
| Consignes.Bump | components/Consignes.tsx:24 | `max(0, value + delta)` |
| Consignes.CrateEquivalent | components/Consignes.tsx:77 | the whole crates the empties make up |
| Consignes.CrateStock.constructor | App.tsx:76 | both counters start at zero |
| Consignes.CrateStock.UpdateCrates | components/Consignes.tsx:21-26 | only the named counter moves, never below zero |
| Consignes.CrateStock.HandleExchange | components/Consignes.tsx:28-38 | with 12 empties or more, 12 empties become one full crate; otherwise nothing changes; bottles are conserved |
| Consignes.ExchangeKeepsCrates | components/Consignes.tsx:77 | an exchange lowers the displayed crate equivalent by exactly one |
| Inventory.LowStock | components/Inventory.tsx:43 | exactly the products with stock at or under the threshold, in order |
| Inventory.Search | components/Inventory.tsx:39-41 | exactly the products whose lowercased name contains the lowercased term, in order |
| Inventory.SearchEmptyKeepsAll | components/Inventory.tsx:39-41 | an empty term lists the whole catalogue |
| Inventory.WithoutProduct | components/Inventory.tsx:47 | exactly the products with that id go; the rest stay in order |
| Inventory.ProductFromForm | components/Inventory.tsx:72-82 | the form's fields; the edited id or a fresh one; the deposit flag iff the checkbox sent `on` |
| Seqs.ReplaceWhere | components/Inventory.tsx:85 | the elements the test hits replaced, the others unchanged in place, length kept; also the staff edit of components/Settings.tsx:188 |
| Inventory.SaveProduct | components/Inventory.tsx:84-88 | an edit replaces in place and keeps the ids; a creation appends exactly one product |
| Inventory.AddCategory | components/Inventory.tsx:95-102 | an empty or existing trimmed name is refused; otherwise it is appended once |
| Inventory.RemoveCategory | components/Inventory.tsx:105-111 | refused iff a product uses it; otherwise only that name goes |
| LocalDb.FindByKey | App.tsx:185 | the first record with the key, or none when no record has it |
| LocalDb.AddAllLookup | App.tsx:185 | after a bulk add a key holds its old record, else the first new record with it |
| LocalDb.TableOfLookup | App.tsx:184-185 | a cleared-and-filled table holds exactly the list's keys, each with its first record |
| LocalDb.FindByProductKey | db.ts:17 | looking a product up by primary key is `products.find` by id |
| LocalDb.AddAllOverride | App.tsx:176 | overriding a key before a bulk add equals overriding it after |
| LocalDb.TableOfPrepend | App.tsx:168-178 | a record put in front of the list sits in the table over its key |
| LocalDb.Table.constructor | db.ts:16-22 | an empty table with its key |
| LocalDb.Table.Put | App.tsx:176 | insert or overwrite by key |
| LocalDb.Table.Add | App.tsx:169 | insert; refused exactly when the key is taken |
| LocalDb.Table.Clear | App.tsx:184 | no rows left |
| LocalDb.Table.BulkAdd | App.tsx:185 | each record in turn; success iff no key conflict |
| LocalDb.Db.constructor | db.ts:12-23 | the five empty tables of the schema |
| App.FirstItem | App.tsx:171 | the first sale line naming the product, or none |
| App.StockAfterSale | App.tsx:170-173 | same length and order; each product less its first sold line's quantity, with no lower bound; unsold products unchanged |
| App.FindAfterSale | App.tsx:175 | looking a product up after the sale finds it with its decremented stock |
| App.WriteBackStock | App.tsx:174-177 | the loop puts each named product, as updated, into the table |
| App.AddSale | App.tsx:168-169 | the add succeeds iff no stored sale has the id; the table then holds the stamped sale first |
| App.SyncStock | App.tsx:170-177 | after the write-back the product table holds exactly the updated list |
| App.WriteBackWrites | App.tsx:174-177 | only products named by some line are written, each as updated |
| App.MirrorAfterSale | App.tsx:174-179 | writing back the named products leaves the table equal to the updated list |
| App.SaleFromCartKeepsStock | App.tsx:170-172 | a sale from a stock-capped cart leaves no negative stock |
| Cart.QtyOfLine | components/POS.tsx:113 | in a distinct-keyed cart each line's quantity is the cart's quantity for it |
| App.FindFirstOfDistinct | components/POS.tsx:114 | with distinct ids, looking up a product's id finds that product |
| App.RemovePending | App.tsx:343 | exactly the pending orders with the id go; the rest stay in order |
| App.WithTier | App.tsx:205-213 | the tier, ACTIVE status, and each code replaced only by a non-empty new one |
| App.WithTierIdempotent | App.tsx:205-213 | applying the same upgrade twice is applying it once |
| App.ElapsedDays | App.tsx:196-197 | the floor of milliseconds by 86400000 |
| App.LicenseInfo | App.tsx:194-203 | 30 days and not expired without a date; otherwise `max(0, 30 - days)`; expired iff 0 on a non-ACTIVE store |
| App.FutureInstallationExceedsTrial | App.tsx:196-198 | an installation date two days ahead gives 32 days |
| App.UpdaterEmptiesTable | App.tsx:182-186 | as written, an updater leaving a non-empty list leaves a table that does not hold it |
| App.Resolve | App.tsx:182-192 | definition with no contract of its own: the list a state setter ends with; the corrected handlers App.App.HandleUpdateProducts and App.App.HandleUpdateStaff persist it |
| App.PersistedAsWritten | App.tsx:182-192 | definition with no contract of its own: the table the handlers leave as written; App.UpdaterEmptiesTable shows it loses an updater's list |
| App.DeleteEmptiesCatalog | components/Inventory.tsx:47 | as written, deleting one of two products empties the product table |
| App.App.constructor | App.tsx:69-90 | the default store, categories and settings, empty lists and tables |
| App.App.HandleNewSale | App.tsx:167-180 | refused iff the id is taken; otherwise the stamped sale goes first and the stock is decremented; the tables follow |
| App.App.HandleUpdateProducts | App.tsx:182-186 | the corrected handler (see Findings): the product list the setter resolves to, mirrored in the table |
| App.App.HandleUpdateStaff | App.tsx:188-192 | the corrected handler (see Findings): the staff list the setter resolves to, mirrored in the table |
| App.App.ValidatePending | App.tsx:343 | the pending list filtered by id |
| App.App.UpdateTierWithCodes | App.tsx:205-213 | the store after the upgrade |
| App.App.PosCheckout | components/POS.tsx:145-159 | the ticket built; a built sale is committed iff its id is new, and otherwise the lists stay; a zero total leaves the counter untouched; a missing product leaves `isProcessing` set and the cart and inputs as they were; a built sale empties the cart, customer and table and resets the waiter to the manager |
| App.App.LoadPendingIntoPos | components/POS.tsx:86-93 | the cart from the order, its customer and table, the waiter `order.waiterName \|\| managerName`, and the order out of the pending list |
| App.App.DeleteProduct | components/Inventory.tsx:45-49 | a confirmed delete removes the products with the id; the table mirrors it through the corrected product handler (see Findings) |
| App.App.SaveProduct | components/Inventory.tsx:68-88 | the saved catalogue; the table mirrors it through the corrected product handler (see Findings) |
| App.App.AddCategory | components/Inventory.tsx:95-102 | the category list after a successful add, unchanged otherwise |
| App.App.RemoveCategory | components/Inventory.tsx:105-111 | the category list after a successful removal, unchanged otherwise |
| App.App.SaveStaff | components/Settings.tsx:162-194 | saved iff not a taken username for a new account; the staff list as saved, mirrored through the corrected staff handler (see Findings) |
| App.App.ToggleStaffStatus | components/Settings.tsx:196-198 | the toggled list, mirrored through the corrected staff handler (see Findings) |
| App.App.DeleteStaff | components/Settings.tsx:200-203 | a confirmed delete removes the members with the id, mirrored through the corrected staff handler (see Findings) |
| SettingsScreen.StaffFromForm | components/Settings.tsx:170-186 | the form's fields; an edit keeps id, status, sales and ratings; a new account is active with 0 sales, ratings 5, no complaints |
| SettingsScreen.SaveStaff | components/Settings.tsx:165-191 | refused iff creating with a taken username; an edit replaces in place; a creation appends one |
| SettingsScreen.ToggleStatus | components/Settings.tsx:196-198 | only `isActive` of the members with the id flips |
| SettingsScreen.ToggleTwice | components/Settings.tsx:196-198 | toggling twice restores the list |
| SettingsScreen.WithoutMember | components/Settings.tsx:200-203 | exactly the members with the id go |
| SettingsScreen.ReplaceRows | components/Settings.tsx:100-104 | the table holds the array; success iff no key conflict |
| SettingsScreen.ReplaceAll | components/Settings.tsx:99-105 | every table replaced iff all arrays fit |
| SettingsScreen.ImportData | components/Settings.tsx:96-110 | imported iff parsed, confirmed and fitting; then each table holds its array (or none); otherwise nothing changes |
| SettingsScreen.ResetApp | components/Settings.tsx:115-123 | only `EFFACER` empties the database |
| StaffManagement.Rate | components/StaffManagement.tsx:42 | only the chosen criterion and the evaluation date change |
| StaffManagement.RateMember | components/StaffManagement.tsx:40-43 | only the members with the id are re-rated |
| StaffManagement.Stars | components/StaffManagement.tsx:82-86 | five stars; star k is lit iff k is at most the value |
| StaffManagement.LitPrefix | components/StaffManagement.tsx:86 | the lit count of the first n stars |
| StaffManagement.LitMatchesRating | components/StaffManagement.tsx:80-92 | a rating in 1..5 lights exactly that many stars, the lit ones first |
| StaffManagement.RatingsStayInRange | components/StaffManagement.tsx:40-86 | rating with a star, adding and deleting keep every rating in 1..5 |
| StaffManagement.CanAdd | components/StaffManagement.tsx:54 | the trimmed name, username and code are all non-empty |
| StaffManagement.StaffBoard.constructor | components/StaffManagement.tsx:32-36 | the staff list, the tier and an empty form |
| StaffManagement.StaffBoard.UpdateStaffPerformance | components/StaffManagement.tsx:38-44 | re-rates only on the enterprise tier |
| StaffManagement.StaffBoard.DeleteStaff | components/StaffManagement.tsx:46-50 | a confirmed delete removes the members with the id |
| StaffManagement.StaffBoard.SetNewStaff | components/StaffManagement.tsx:36 | the form inputs |
| StaffManagement.StaffBoard.AddStaff | components/StaffManagement.tsx:52-78 | added iff the form is complete; appended with the defaults and no username check; the form resets |
| Login.VerifyOwner | components/Login.tsx:19-39 | signed in iff the code equals the activation code, or `123456` when none is set; the owner user; otherwise the error text |
| Login.OwnerCode | components/Login.tsx:24 | definition with no contract of its own; Login.VerifyOwner states the code it accepts in both cases |
| Login.FindStaff | components/Login.tsx:46-50 | the first member matching username ignoring case, exact code and active account |
| Login.Matches | components/Login.tsx:46-50 | definition with no contract of its own; Login.FindStaff returns its first match and Login.UsernameCaseInsensitive shows the username's case does not matter |
| Login.WaiterUser | components/Login.tsx:53-60 | the waiter user: id, name, `username@bistrogest.ga`, verified |
| Login.VerifyStaff | components/Login.tsx:41-67 | signed in iff some member matches, as the first one; otherwise the error text |
| Login.UsernameCaseInsensitive | components/Login.tsx:47 | the typed username's case does not matter |
| SalesHistory.FilterSales | components/SalesHistory.tsx:28-37 | exactly the sales matching the search, in order |
| SalesHistory.MatchesSearch | components/SalesHistory.tsx:28-37 | definition with no contract of its own; SalesHistory.FilterSales keeps exactly the sales it accepts and SalesHistory.EmptySearchKeepsAll shows "" accepts every sale |
| SalesHistory.EmptySearchKeepsAll | components/SalesHistory.tsx:31-32 | an empty search keeps every sale |
| SalesHistory.TotalSplits | components/SalesHistory.tsx:96 | the totals of the kept and the rejected sales add up to the grand total |
| SalesHistory.TotalPeriod | components/SalesHistory.tsx:96 | definition with no contract of its own; bounded by the grand total in SalesHistory.ReportWithinGrandTotal |
| SalesHistory.ReportWithinGrandTotal | components/SalesHistory.tsx:96 | with non-negative sales the report total lies between 0 and the grand total |
| SalesHistory.NonNegativeTotal | components/SalesHistory.tsx:96 | sales drawn from non-negative ones have a non-negative total |
| SalesHistory.ToggleExpand | components/SalesHistory.tsx:43-45 | collapses iff that sale was expanded; otherwise expands it |
| SalesHistory.OrDefault | components/SalesHistory.tsx:56-57 | the field when non-empty, else the fallback |
| SalesHistory.Row | components/SalesHistory.tsx:50-61 | the eight cells: date, time, ticket, client or `Comptoir`, table or `-`, total, payment, cashier |
| SalesHistory.RowLines | components/SalesHistory.tsx:50-62 | one line per filtered sale |
| SalesHistory.Csv | components/SalesHistory.tsx:47-63 | nothing for an empty selection; otherwise the byte-order mark first |
| SalesHistory.NumeralClean | components/SalesHistory.tsx:58 | a total's numeral holds no `;` and no line break |
| SalesHistory.RowClean | components/SalesHistory.tsx:52-61 | with clean text fields every cell is separator-free |
| SalesHistory.RowsReadBack | components/SalesHistory.tsx:61 | each row line has no line break and splits back into its cells |
| SalesHistory.HeaderReadsBack | components/SalesHistory.tsx:49-63 | the header line splits back into the eight titles |
| SalesHistory.NoBreaks | components/SalesHistory.tsx:63 | no line of the file holds a line break |
| SalesHistory.FilteredClean | components/SalesHistory.tsx:28 | the filtered sales keep clean text fields |
| SalesHistory.CsvReadsBack | components/SalesHistory.tsx:63 | after the mark the file splits into the header line and one line per sale, each reading back |
| OwnerMonitor.TallyCounts | components/OwnerMonitor.tsx:40-43 | each name's count is the summed quantity of the lines with that name |
| OwnerMonitor.Tally | components/OwnerMonitor.tsx:40-43 | definition with no contract of its own; its counts and keys are proved in OwnerMonitor.TallyCounts, OwnerMonitor.TallyKeys and OwnerMonitor.TallyDistinct |
| OwnerMonitor.Step | components/OwnerMonitor.tsx:41 | definition with no contract of its own; OwnerMonitor.StepCounts and OwnerMonitor.StepHas state what one step does |
| OwnerMonitor.SoldSnoc | components/OwnerMonitor.tsx:41 | a name is sold in a list iff in its prefix or in its last line |
| OwnerMonitor.StepHas | components/OwnerMonitor.tsx:42 | one step adds exactly the line's name to the keys |
| OwnerMonitor.TallyKeys | components/OwnerMonitor.tsx:40-43 | the keys are exactly the names sold |
| OwnerMonitor.TallyDistinct | components/OwnerMonitor.tsx:40 | the keys are distinct |
| OwnerMonitor.StepCounts | components/OwnerMonitor.tsx:42 | one step adds the line's quantity under its name |
| OwnerMonitor.TallySnoc | components/OwnerMonitor.tsx:41-42 | tallying one more line is one more step |
| OwnerMonitor.AllItemsPrefix | components/OwnerMonitor.tsx:41 | the lines of one more sale follow those of the earlier ones |
| OwnerMonitor.ProductCounts | components/OwnerMonitor.tsx:40-43 | the nested loop builds the tally of all lines of all sales |
| OwnerMonitor.ConsNonIncreasing | components/OwnerMonitor.tsx:46 | a head no smaller than a sorted tail keeps it sorted |
| OwnerMonitor.Insert | components/OwnerMonitor.tsx:46 | inserting adds exactly the entry, after those with a count no smaller |
| OwnerMonitor.InsertSorted | components/OwnerMonitor.tsx:46 | inserting into a sorted list keeps it sorted |
| OwnerMonitor.SortByCount | components/OwnerMonitor.tsx:45-46 | a permutation in non-increasing count order |
| OwnerMonitor.Take | components/OwnerMonitor.tsx:47 | the first n entries, or all when fewer |
| OwnerMonitor.PrefixIsTop | components/OwnerMonitor.tsx:46-47 | a prefix of a sorted list has counts no smaller than what follows |
| OwnerMonitor.PrefixIncluded | components/OwnerMonitor.tsx:47 | a prefix's entries are entries of the list |
| OwnerMonitor.TopProducts | components/OwnerMonitor.tsx:45-47 | at most 5 entries, non-increasing, drawn from the counts, none smaller than an entry left out |
| OwnerMonitor.TopOfSorted | components/OwnerMonitor.tsx:45-47 | the ranking facts follow from sorting and slicing |
| OwnerMonitor.TodaySales | components/OwnerMonitor.tsx:36 | exactly the sales of the given day, in order |
| OwnerMonitor.TodayAndOtherDays | components/OwnerMonitor.tsx:36-37 | today's and the other days' totals and counts add up to all sales |
| OwnerMonitor.Stats | components/OwnerMonitor.tsx:34-50 | today's total and count, and the top 5 with each count the name's summed quantity |
| Dashboard.OrZero | components/Dashboard.tsx:55-61 | an absent field counts as 0 |
| Dashboard.FixedChargesAre | components/Dashboard.tsx:55-61 | rent, manager, electricity, water, wifi, Canal+ and DJ summed; the app subscription plays no part |
| Dashboard.FixedCharges | components/Dashboard.tsx:55-61 | definition with no contract of its own; Dashboard.FixedChargesAre and Dashboard.ChargesNonNegative state what it sums |
| Dashboard.StockValue | components/Dashboard.tsx:54 | definition with no contract of its own; Dashboard.StockValueAfterSale proves what a sale does to it |
| Dashboard.ChargesNonNegative | components/Dashboard.tsx:55-61 | non-negative fields give non-negative charges |
| Dashboard.AnalyticsOf | components/Dashboard.tsx:52-64 | gross sales, stock value at cost and fixed charges |
| Dashboard.StockValueAfterSale | components/Dashboard.tsx:54 | a committed sale lowers the stock value by the cost of the stock it takes |
| Dashboard.BarIsGreen | components/Dashboard.tsx:214 | a day's bar is green iff 30 times its total reaches the monthly charges |

## Left out

- Rendering, modals, icons, themes, `toLocaleString` formatting, and the `alert`, `confirm` and `prompt` dialogs. A confirmation or typed answer becomes a parameter.
- `components/Billing.tsx`, `components/ReceiptPrinter.ts`, `components/MetricCard.tsx`, `components/AdBanner.tsx` and `components/PublicationModal.tsx`: payment simulation, printing and display only.
- Timers (the 800 ms checkout delay, the login delays) and asynchrony. Each handler runs as one sequential step, and no atomicity is claimed for the un-transacted writes of `handleNewSale`.
- `Math.random` ids, `new Date()` timestamps, `Date.now()` and locale dates. They are parameters; the calendar day of a sale is a function passed in.
- The Gemini call, `navigator.onLine`, the JSON, Blob and FileReader import and export I/O, the PDF export, and the settings form `handleSubmit`. The import is modelled from the parsed backup on.
- The startup seeding and metadata autosave effects (App.tsx:93-165). The app metadata (store, user, categories, crates, settings) is not persisted in the model, and neither is the pending-order table.
- Cart: JavaScript lists integer-like object keys first in ascending order. The model keeps plain insertion order for every key. This affects the order of sale lines (Cart.ToItems, POS.CreateSale), the order of pending-order lines (DigitalMenu.BuildOrder), and which missing product the `find(...)!` of Cart.ToItems reports first.
- `chartData`'s seven-day loop (components/Dashboard.tsx:66-87). Only the bar colour rule is modelled.
- POS `filteredProducts` (components/POS.tsx:55-61) is not modelled separately. It is the menu listing without the stock test.
- POS.VatSplit: the subtotal and tax are IEEE doubles in the app. The model uses `real` and states only the defining equations, with no rounding.
- POS.CreateSale: requires a non-negative VAT rate, so that the divisor is not zero; the app lets any number through. POS.MakeTicket, POS.PosSession.PrintDraft, POS.PosSession.Checkout and App.App.PosCheckout carry the same precondition, since they build the sale through it.
- App.LicenseInfo: the 0..30 bound on the days left is proved only when the clock is at or after the installation date. An installation date in the future gives more than 30 (App.FutureInstallationExceedsTrial).
- OwnerMonitor.TopProducts: the order among entries with equal counts is not stated. Keys are product names, and JavaScript's integer-like key ordering is not modelled here either.
- SalesHistory.CsvReadsBack: the export does not quote cells. The read-back holds only for text fields free of `;` and line breaks.
- Money is unbounded `int`; JavaScript's double range is not modelled.
- Text.Lower: only the ASCII capitals and the Latin-1 capitals U+00C0..U+00DE (without U+00D7) are lowered, one character to one. JavaScript's `toLowerCase` lowers every script (`Œ` to `œ`, Greek, Cyrillic) and can lengthen a string (`İ` gives two code units). So Login.FindStaff, Inventory.Search, SalesHistory.FilterSales and DigitalMenu.MenuListing can disagree with the app on such text: a username `Œdipe` typed as `œdipe` signs in in the app but not in the model.
- DigitalMenu.IsFormValid: `string` is a sequence of code points, and `.length` in the app counts UTF-16 code units. A name made of one character outside the Basic Multilingual Plane passes the app's length-2 test but fails the model's.

## Findings

| source | as written | input that shows it | evidently intended | confidence | as-written member | corrected member |
|---|---|---|---|---|---|---|
| App.tsx:182-186 with components/Inventory.tsx:47,85,87 | the stock screen calls `setProducts` with an updater function; `handleUpdateProducts` stores it in state but then does `db.products.clear()` and `bulkAdd` of the function, so the table ends up empty | deleting product `p2` from the catalogue `[p1, p2]`: the screen shows `[p1]`, the product table holds nothing | persist the list the updater resolves to | not executed | App.DeleteEmptiesCatalog | App.App.HandleUpdateProducts |
| App.tsx:188-192 with components/Settings.tsx:188,190,197,202 | the console calls `setStaff` with an updater function; `handleUpdateStaff` clears the staff table and bulk-adds the function, leaving the table empty | toggling the status of the only member: the list shows one member, the staff table holds none | persist the list the updater resolves to | not executed | App.UpdaterEmptiesTable | App.App.HandleUpdateStaff |
