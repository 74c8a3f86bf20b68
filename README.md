# AutoMasters billing and inventory core, in Dafny

AutoMasters is a desktop application for a vehicle service centre. It keeps a
catalogue of parts and services (items) and their stock in batches, with a log
of every stock movement. It issues numbered invoices made of service lines and
prints receipts on an ESC/POS receipt printer. This project models the
bookkeeping and validation logic behind those screens and proves what it
promises.

The model has these modules, one file each:

- `StringSimilarity` (`string_similarity.dfy`): the fuzzy duplicate-name test.
  - The Levenshtein table filled by nested loops, proved equal to the recursive edit distance.
  - The similarity percentage and the normaliser.
  - The two `areSimilar` overloads, with their bounds, symmetry and case-insensitivity.
- `ItemEntity`, `ItemDao`, `ItemManagement`: the item catalogue.
  - The lower-cased name key kept in step with the display name.
  - The store of items with its queries: exact name, substring search, sorted listing, similar names.
  - The add and delete guard chains of the item screen.
- `StockBatchEntity`, `StockBatchDao`: the batch ledger.
  - Per-batch quantities, with the guarded `reduceQuantity`.
  - The per-item total, computed in 32-bit `int` arithmetic.
  - The "available batches" query: stock left, oldest first.
- `StockTransactionEntity`, `StockTransactionDao`: the append-only movement log.
  - Its STOCK_IN and STOCK_OUT record shapes.
  - Its five newest-first queries.
- `StockIn`, `StockOut`, `StockHistory`: the three stock screens.
  - Stock-in: the validation chain, then a batch and a log record written together.
  - Stock-out: the batch chosen from the listing, reduced, then logged, with the listed total.
  - History: the choice of query from two selections.
- `InvoiceEntity`, `InvoiceDao`, `InvoiceForm`: invoices.
  - The invoice and its lines, whose total follows every add and remove.
  - The invoice store: day and range queries, income totals, and the `INV-` numbering.
  - The invoice form: its validators, and the service table whose serials stay 1..n.
- `ReceiptPrinting` (`receipt_printer.dfy`): the receipt.
  - The receipt stream, framed by the initialise command and the paper cut.
  - Item rows and their truncated descriptions, and the mileage line rule.
  - Separator lines, and the choice of printer by name.
- `JavaNumbers`, `Text`, `Seqs`, `Wrappers`: what the code relies on from Java and SQL.
  - Java `int` arithmetic, `Integer.parseInt` and `Double.parseDouble` on plain decimals.
  - The `%0Nd` and `%.2f` formats.
  - ASCII `toLowerCase`/`toUpperCase` and `trim`.
  - `ORDER BY` as a stable sort and `WHERE` as a filter.
  - Sums over sequences.

How the system is represented:

- Each database table is a class holding its rows as a sequence and the next identity.
  - `save` and `delete` change that sequence.
  - Every query is a function of the rows: a filter followed by a stable sort.
- A row refers to another entity by its identity.
- Entities that the code changes through setters are classes.
- A stock transaction is only ever built and saved, so it is a datatype.
- Prices and totals are exact reals.
  - What `%.2f` shows is modelled exactly: rounding half up to the cent.
  - Reading a price cell back is modelled as well.
- Dates and times are whole seconds since the epoch, passed in as `now`. A calendar day `d` is the half-open span `[d*86400, (d+1)*86400)`.
- User confirmations and dialog answers are inputs.

Where the documented behaviour and the code differ, the model follows the code:

- The first invoice number proposed is "INV-00001" (five digits). The form accepts only seven digits, so the seed is refused (`InvoiceForm.SeedRejected`).
- The mileage is required by the form, not optional.
- `setTotalAmount` and `setItems` can break the total invariant; only `addItem` and `removeItem` keep it.
- The "last" invoice is the one with the highest identity.
- A stock-out with no item selected still lowers the batch before the log refuses the record without an item; `useBatch` reports this as `LogRefused`.
- The stored item key is `toLowerCase().trim()` of the raw name, while the duplicate check compares the lower-cased name with the trimmed query.

## Model

| member | source | states |
|---|---|---|
| StringSimilarity.Min3 | src/main/java/com/automasters/util/StringSimilarity.java:27-28 | the nested `Math.min`: no more than any of the three, and one of them |
| StringSimilarity.Max | src/main/java/com/automasters/util/StringSimilarity.java:41 | `Math.max`: no less than either, and one of them |
| StringSimilarity.LevenshteinDistance | src/main/java/com/automasters/util/StringSimilarity.java:9-34 | the table filled by the two initial loops and the nested loop ends in the recursive edit distance of the lower-cased strings (insert, delete and substitute cost 1, a match costs 0) |
| StringSimilarity.SimilarityPercentage | src/main/java/com/automasters/util/StringSimilarity.java:39-45 | the result is the exact similarity, lies in [0, 100], and is 100 exactly when the strings are equal ignoring case (so 100 for two empty strings) |
| StringSimilarity.Normalize | src/main/java/com/automasters/util/StringSimilarity.java:51-58 | every character of the result is a lower-case ASCII letter or a digit; null gives "" |
| StringSimilarity.AreSimilar | src/main/java/com/automasters/util/StringSimilarity.java:70-81 | the verdict is "equal after normalisation, or similarity at least the threshold"; equal normal forms are similar at any threshold; above 100 only equal normal forms are |
| StringSimilarity.AreSimilarByDefault | src/main/java/com/automasters/util/StringSimilarity.java:63-65 | the two-argument overload is the three-argument one at 80 percent |
| StringSimilarity.EditDistanceSymmetric | src/main/java/com/automasters/util/StringSimilarity.java:22-31 | the table's recurrence is symmetric in its two strings |
| StringSimilarity.EditDistanceUpper | src/main/java/com/automasters/util/StringSimilarity.java:22-31 | a table cell never exceeds the longer of its two prefix lengths |
| StringSimilarity.EditDistanceLower | src/main/java/com/automasters/util/StringSimilarity.java:22-31 | a table cell is at least the difference of the two prefix lengths |
| StringSimilarity.EditDistanceZero | src/main/java/com/automasters/util/StringSimilarity.java:22-31 | a table cell is 0 exactly when the two prefixes are equal |
| StringSimilarity.DistanceZeroIffEqual | src/main/java/com/automasters/util/StringSimilarity.java:5-9 | distance 0 exactly between equal strings |
| StringSimilarity.DistanceIgnoresCase | src/main/java/com/automasters/util/StringSimilarity.java:10-11 | lower-casing the inputs before the call changes nothing |
| StringSimilarity.DistanceToEmpty | src/main/java/com/automasters/util/StringSimilarity.java:15-20 | against the empty string the distance is the other string's length, either way round |
| StringSimilarity.DistanceBounds | src/main/java/com/automasters/util/StringSimilarity.java:40-44 | the distance lies between the length difference and the longer length, so the ratio in the percentage is at most 1 |
| StringSimilarity.DistanceSymmetric | src/main/java/com/automasters/util/StringSimilarity.java:5-9 | the distance is symmetric |
| StringSimilarity.SimilarityRange | src/main/java/com/automasters/util/StringSimilarity.java:36-45 | the percentage lies in [0, 100] and is 100 exactly for strings equal ignoring case |
| StringSimilarity.SimilarityThreshold | src/main/java/com/automasters/util/StringSimilarity.java:80 | for non-empty input, "percentage >= t" is the exact test 100*(m-d) >= t*m |
| StringSimilarity.SimilaritySymmetric | src/main/java/com/automasters/util/StringSimilarity.java:39-45 | the percentage is symmetric |
| StringSimilarity.SimilarityIgnoresCase | src/main/java/com/automasters/util/StringSimilarity.java:10-11 | the percentage ignores case |
| StringSimilarity.TrimOfAlnum | src/main/java/com/automasters/util/StringSimilarity.java:55-57 | the final trim of `normalize` never removes anything |
| StringSimilarity.NormalizeIdempotent | src/main/java/com/automasters/util/StringSimilarity.java:51-58 | normalising a normal form gives it back |
| StringSimilarity.NormalizeIgnoresCase | src/main/java/com/automasters/util/StringSimilarity.java:55-56 | lower-casing first gives the same normal form |
| StringSimilarity.SimilarReflexive | src/main/java/com/automasters/util/StringSimilarity.java:75-77 | every name is similar to itself at every threshold |
| StringSimilarity.SimilarSymmetric | src/main/java/com/automasters/util/StringSimilarity.java:70-81 | the verdict is symmetric |
| StringSimilarity.SimilarMonotone | src/main/java/com/automasters/util/StringSimilarity.java:80 | a pair similar at a threshold is similar at every lower one |
| StringSimilarity.SimilarExtremes | src/main/java/com/automasters/util/StringSimilarity.java:70-81 | a threshold of 0 or less accepts every pair; one above 100 accepts only equal normal forms |
| ItemEntity.NameKey | src/main/java/com/automasters/entity/Item.java:34 | the stored key has no upper-case letter, has no surrounding blanks, and is no longer than the name |
| ItemEntity.NameKeyIdempotent | src/main/java/com/automasters/entity/Item.java:32-37 | folding a key again gives the same key |
| ItemEntity.NameKeyIsLowerOfTrim | src/main/java/com/automasters/entity/Item.java:34 | lower-case-then-trim equals trim-then-lower-case |
| ItemEntity.SameLowerSameKey | src/main/java/com/automasters/entity/Item.java:7-9 | names equal ignoring case get the same unique key |
| ItemEntity.Item.Blank | src/main/java/com/automasters/entity/Item.java:28-30 | the no-argument constructor sets only the creation time, and the name invariant holds |
| ItemEntity.Item.constructor | src/main/java/com/automasters/entity/Item.java:32-37 | name, key from the name, description and creation time are set, so the key matches the name |
| ItemEntity.Item.UpdateItemNameLower | src/main/java/com/automasters/entity/Item.java:39-45 | the hook re-derives the key from a present name and leaves it alone otherwise |
| ItemEntity.Item.SetItemName | src/main/java/com/automasters/entity/Item.java:60-63 | name and key change together, so the key still matches the name |
| ItemEntity.Item.SetDescription | src/main/java/com/automasters/entity/Item.java:73-75 | only the description changes |
| ItemEntity.Item.SetCreatedDate | src/main/java/com/automasters/entity/Item.java:81-83 | only the creation time changes |
| ItemDao.FindById | src/main/java/com/automasters/dao/ItemDAO.java:26-30 | a found row is stored and has that identity; none found means no row has it |
| ItemDao.FindByName | src/main/java/com/automasters/dao/ItemDAO.java:32-40 | a found row is stored and its lower-cased name equals the lower-cased trimmed argument; none found means no row matches |
| ItemDao.ItemStore.constructor | src/main/java/com/automasters/dao/ItemDAO.java:10 | an empty table whose identities start at 0 |
| ItemDao.ItemStore.Save | src/main/java/com/automasters/dao/ItemDAO.java:12-24 | an entity with an identity is refused; otherwise the persist hook re-derives the key; a null name or a taken key is refused with nothing changed; else one row is appended under the next identity, which the entity receives |
| ItemDao.ItemStore.Persist | src/main/java/com/automasters/dao/ItemDAO.java:12-24 | for an entity without an identity: the hook re-derives the key; a null name or a taken key is refused with no row added and no identity given; else one row is appended under the next identity, which the entity receives |
| ItemDao.ItemStore.Insert | src/main/java/com/automasters/entity/Item.java:7-9 | the INSERT is refused exactly when the unique lower-cased key is taken; otherwise the row is appended under the next identity |
| ItemDao.ItemStore.Delete | src/main/java/com/automasters/dao/ItemDAO.java:98-110 | exactly the row with the identity goes; all others stay, in order, and the table's invariants hold |
| ItemDao.ItemStore.FindSimilarItems | src/main/java/com/automasters/dao/ItemDAO.java:84-96 | the loop keeps exactly the rows of `findAll` that are similar to the name, in `findAll` order |
| ItemDao.KeepIfSimilar | src/main/java/com/automasters/dao/ItemDAO.java:89-93 | one turn of that loop: the next row of `findAll` is added exactly when its name is similar, so the result stays the filter of the rows seen |
| ItemDao.AppendKeepsValid | src/main/java/com/automasters/entity/Item.java:19-20 | appending a fresh row with an untaken key keeps identities increasing and keys unique and in sync with names |
| ItemDao.SubsequenceKeepsOrder | src/main/java/com/automasters/dao/ItemDAO.java:98-110 | removing a row keeps identities increasing and keys unique |
| ItemDao.SubsequencePairs | src/main/java/com/automasters/dao/ItemDAO.java:98-110 | the same for every pair of surviving rows, by induction on the table |
| ItemDao.FindByNameUnique | src/main/java/com/automasters/dao/ItemDAO.java:32-40 | with unique keys, the name query returns exactly the matching row, so `uniqueResult` never sees two |
| ItemDao.ExistsIffFound | src/main/java/com/automasters/dao/ItemDAO.java:42-51 | `existsByName` is true exactly when `findByName` finds a row |
| ItemDao.ByNameTotalPreorder | src/main/java/com/automasters/dao/ItemDAO.java:55 | ordering by name is total and transitive |
| ItemDao.FindAllSortedPermutation | src/main/java/com/automasters/dao/ItemDAO.java:53-58 | `findAll` lists every row once, sorted by name |
| ItemDao.SearchIsFilteredFindAll | src/main/java/com/automasters/dao/ItemDAO.java:60-68 | `searchItems` lists exactly the rows whose lower-cased name contains the lower-cased trimmed term, sorted by name |
| ItemDao.BlankSearchFindsAll | src/main/java/com/automasters/dao/ItemDAO.java:65 | a blank term matches every row, so the search is `findAll` |
| ItemDao.SimilarIncludesSameNormalForm | src/main/java/com/automasters/dao/ItemDAO.java:89-93 | a stored name with the same normal form is always among the similar items |
| StockBatchEntity.StockBatch.constructor | src/main/java/com/automasters/entity/StockBatch.java:37-45 | item, quantity, prices and reference as given, no identity, dated now |
| StockBatchEntity.StockBatch.SetQuantity | src/main/java/com/automasters/entity/StockBatch.java:67-69 | only the quantity changes |
| StockBatchDao.IndexOfId | src/main/java/com/automasters/dao/StockBatchDAO.java:27-31 | a position found holds a row with the identity; none found means no row has it |
| StockBatchDao.FindById | src/main/java/com/automasters/dao/StockBatchDAO.java:27-31 | a found row is stored and has that identity; none found means no row has it |
| StockBatchDao.GetTotalQuantity | src/main/java/com/automasters/dao/StockBatchDAO.java:53-62 | the result is a 32-bit value, equal to the item's sum whenever that sum fits (`intValue()` narrowing, 0 without batches) |
| StockBatchDao.BatchStore.constructor | src/main/java/com/automasters/dao/StockBatchDAO.java:11 | an empty table whose identities start at 0 |
| StockBatchDao.BatchStore.Save | src/main/java/com/automasters/dao/StockBatchDAO.java:13-25 | an entity with an identity is refused with nothing changed; otherwise its row is appended under the next identity, which the entity receives |
| StockBatchDao.BatchStore.Merge | src/main/java/com/automasters/dao/StockBatchDAO.java:87-99 | the entity's state overwrites the row with its identity, or is inserted as a new row when there is none |
| StockBatchDao.BatchStore.Update | src/main/java/com/automasters/dao/StockBatchDAO.java:87-99 | as `merge` |
| StockBatchDao.BatchStore.UpdateQuantity | src/main/java/com/automasters/dao/StockBatchDAO.java:64-77 | the entity's quantity becomes the new one and the row with its identity is overwritten (or a new row inserted) |
| StockBatchDao.BatchStore.ReduceQuantity | src/main/java/com/automasters/dao/StockBatchDAO.java:79-85 | refused with nothing changed exactly when more than the quantity is asked; otherwise the quantity drops by the amount in 32-bit arithmetic and is written back, leaving the table `ReduceRows` gives for the stored batch |
| StockBatchDao.BatchStore.Delete | src/main/java/com/automasters/dao/StockBatchDAO.java:101-113 | exactly the row with the entity's identity goes; an entity without one removes nothing |
| StockBatchDao.FilterKeepsIdOrder | src/main/java/com/automasters/dao/StockBatchDAO.java:101-113 | removing rows keeps the survivors' identities increasing |
| StockBatchDao.ByDateTotalPreorder | src/main/java/com/automasters/dao/StockBatchDAO.java:36 | ordering by batch date is total and transitive |
| StockBatchDao.AvailableIsFilteredByItem | src/main/java/com/automasters/dao/StockBatchDAO.java:43-51 | the available batches are the item's batches, in the same order, keeping those with stock |
| StockBatchDao.AvailableContents | src/main/java/com/automasters/dao/StockBatchDAO.java:43-51 | exactly the item's stored batches with quantity above 0, each once, oldest first |
| StockBatchDao.ByItemContents | src/main/java/com/automasters/dao/StockBatchDAO.java:33-41 | exactly the item's batches, each once, oldest first |
| StockBatchDao.AvailableSumIsTotal | src/main/java/com/automasters/dao/StockBatchDAO.java:53-62 | with no negative quantities the available batches hold the item's whole total |
| StockBatchDao.ItemTotalIsMaskedSum | src/main/java/com/automasters/dao/StockBatchDAO.java:56 | the item total counts every batch of the item and nothing else |
| StockBatchDao.ItemTotalAfterReplace | src/main/java/com/automasters/dao/StockBatchDAO.java:64-77 | overwriting one of an item's batches moves that item's total by the quantity difference and no other item's |
| StockBatchDao.ItemTotalAfterAppend | src/main/java/com/automasters/dao/StockBatchDAO.java:13-25 | a new batch raises its item's total by its quantity and leaves every other total alone |
| StockBatchDao.NoBatchesNoStock | src/main/java/com/automasters/dao/StockBatchDAO.java:60 | an item without batches has total 0 |
| StockBatchDao.ReduceWithinBounds | src/main/java/com/automasters/dao/StockBatchDAO.java:80-83 | a reduction from 0 up to the quantity cannot wrap and leaves between 0 and the old quantity |
| StockBatchDao.NegativeReductionRaises | src/main/java/com/automasters/dao/StockBatchDAO.java:80-83 | for a stored batch with a non-negative quantity, `reduceQuantity` with a negative amount is accepted; the table keeps its length, that batch's stored quantity becomes the old one minus the amount (so it rises) and its item's total rises by the same |
| StockTransactionEntity.NewTransaction | src/main/java/com/automasters/entity/StockTransaction.java:43-48 | item, type and quantity as given, dated now; prices, reference and notes absent |
| StockTransactionEntity.NewPricedTransaction | src/main/java/com/automasters/entity/StockTransaction.java:50-56 | the three-argument shape plus the two prices and the reference |
| StockTransactionEntity.PricedWithoutPricesIsPlain | src/main/java/com/automasters/entity/StockTransaction.java:50-56 | the six-argument constructor with absent prices and reference is the three-argument one |
| StockTransactionDao.TransactionLog.constructor | src/main/java/com/automasters/dao/StockTransactionDAO.java:12 | an empty log whose identities start at 0 |
| StockTransactionDao.TransactionLog.Save | src/main/java/com/automasters/dao/StockTransactionDAO.java:14-26 | exactly one record is appended under the next identity; every earlier record stays as it was |
| StockTransactionDao.NewestFirstTotalPreorder | src/main/java/com/automasters/dao/StockTransactionDAO.java:31 | newest-first ordering is total and transitive |
| StockTransactionDao.FindAllSortedPermutation | src/main/java/com/automasters/dao/StockTransactionDAO.java:28-35 | `findAll` lists every record once, newest first |
| StockTransactionDao.QueryContents | src/main/java/com/automasters/dao/StockTransactionDAO.java:37-77 | each filtered query lists exactly the records its condition keeps, once each, newest first, in `findAll` order |
| StockTransactionDao.ByItemContents | src/main/java/com/automasters/dao/StockTransactionDAO.java:37-45 | `findByItem` lists exactly the item's records, in `findAll` order |
| StockTransactionDao.ByTypeContents | src/main/java/com/automasters/dao/StockTransactionDAO.java:47-55 | `findByType` lists exactly the records of the type, in `findAll` order |
| StockTransactionDao.DateRangeInclusive | src/main/java/com/automasters/dao/StockTransactionDAO.java:57-66 | a record is listed exactly when its date lies in the range, both ends included; newest first |
| StockTransactionDao.ItemAndTypeIsIntersection | src/main/java/com/automasters/dao/StockTransactionDAO.java:68-77 | `findByItemAndType` is `findByItem` narrowed to the type and `findByType` narrowed to the item |
| StockTransactionDao.SaveShowsInQuery | src/main/java/com/automasters/dao/StockTransactionDAO.java:14-26 | after a save, a query lists the new record exactly when its condition keeps it, and lists the old ones as before |
| InvoiceEntity.InvoiceItem.constructor | src/main/java/com/automasters/ui/InvoicePanel.java:470 | a line carries the serial, description and price it was built with and belongs to no invoice yet |
| InvoiceEntity.Invoice.constructor | src/main/java/com/automasters/entity/Invoice.java:44-53 | the given number, customer, contact, vehicle and mileage; dated now; no lines and a zero total, so the total matches the lines |
| InvoiceEntity.Invoice.AddItem | src/main/java/com/automasters/entity/Invoice.java:55-59 | the line is appended after the earlier lines, points back at this invoice, and the total becomes the old total plus its price; no other field of the invoice changes |
| InvoiceEntity.Invoice.RemoveItem | src/main/java/com/automasters/entity/Invoice.java:61-65 | the first occurrence is removed and the total drops by its price; an absent line leaves lines and total as they were; the line's back-reference is cleared; no other field changes |
| InvoiceEntity.Invoice.CalculateTotal | src/main/java/com/automasters/entity/Invoice.java:67-72 | the total becomes the sum of the line prices |
| InvoiceEntity.Invoice.SetItems | src/main/java/com/automasters/entity/Invoice.java:142-144 | replaces the lines and touches nothing else, so the total may no longer match |
| InvoiceEntity.Invoice.SetTotalAmount | src/main/java/com/automasters/entity/Invoice.java:134-136 | overwrites the total and touches nothing else |
| InvoiceEntity.TotalPositive | src/main/java/com/automasters/entity/Invoice.java:67-72 | with positive prices the total is never negative, and positive exactly when there is a line |
| InvoiceDao.Lines | src/main/java/com/automasters/dao/InvoiceDAO.java:18 | the cascaded lines are one stored line per invoice line, same serial, description and price, in list order |
| InvoiceDao.HighestId | src/main/java/com/automasters/dao/InvoiceDAO.java:106-110 | `ORDER BY i.id DESC` with one result picks a stored invoice whose identity no other exceeds |
| InvoiceDao.GenerateNextInvoiceNumber | src/main/java/com/automasters/dao/InvoiceDAO.java:96-123 | an empty table proposes "INV-00001"; every number it proposes starts with "INV-" |
| InvoiceDao.NextAfter | src/main/java/com/automasters/dao/InvoiceDAO.java:112-120 | every number built from the last invoice's number or from the count starts with "INV-" |
| InvoiceDao.InvoiceStore.constructor | src/main/java/com/automasters/dao/InvoiceDAO.java:12 | an empty table whose identities start at 0 |
| InvoiceDao.InvoiceStore.Save | src/main/java/com/automasters/dao/InvoiceDAO.java:14-26 | an invoice with an identity, or whose number is already stored, is refused and nothing changes; otherwise its row and lines are appended under the next identity, which the invoice receives; identities stay increasing and numbers unique |
| InvoiceDao.NewestFirstTotalPreorder | src/main/java/com/automasters/dao/InvoiceDAO.java:31 | newest-first ordering is total and transitive |
| InvoiceDao.WindowContents | src/main/java/com/automasters/dao/InvoiceDAO.java:38-64 | a date window query lists exactly the invoices dated within it, each once, newest first |
| InvoiceDao.FindByDateContents | src/main/java/com/automasters/dao/InvoiceDAO.java:38-50 | `findByDateRange(date)` lists exactly the invoices from the day's first second up to, not including, the next day's, newest first |
| InvoiceDao.FindByDateRangeContents | src/main/java/com/automasters/dao/InvoiceDAO.java:52-64 | `findByDateRange(startDate, endDate)` lists exactly the invoices from the start of the first day through the whole of the last day, newest first |
| InvoiceDao.OneDayIsRange | src/main/java/com/automasters/dao/InvoiceDAO.java:38-94 | the one-date query and income equal the two-date ones with both dates the same |
| InvoiceDao.IncomeIsSumOfListed | src/main/java/com/automasters/dao/InvoiceDAO.java:66-94 | the income of a window is the sum of the totals of the invoices the query lists, and 0 when it lists none |
| InvoiceDao.DayIncomeIsSumOfDay | src/main/java/com/automasters/dao/InvoiceDAO.java:66-79 | `calculateTotalIncome(date)` sums the totals of exactly what `findByDateRange(date)` lists |
| InvoiceDao.RangeIncomeIsSumOfRange | src/main/java/com/automasters/dao/InvoiceDAO.java:81-94 | `calculateTotalIncome(startDate, endDate)` sums the totals of exactly what `findByDateRange(startDate, endDate)` lists |
| InvoiceDao.VehicleSearchContents | src/main/java/com/automasters/dao/InvoiceDAO.java:28-36 | the vehicle search lists exactly the invoices whose vehicle number contains the text, ignoring case, newest first |
| InvoiceDao.HighestIsLast | src/main/java/com/automasters/dao/InvoiceDAO.java:106-110 | with identities increasing in table order, the highest-identity invoice is the last one saved |
| InvoiceDao.NextNumberRoundTrip | src/main/java/com/automasters/dao/InvoiceDAO.java:113-116 | after "INV-" + n padded to seven digits comes "INV-" + (n + 1) padded to seven digits |
| InvoiceDao.GenerateAfterLast | src/main/java/com/automasters/dao/InvoiceDAO.java:96-123 | on a saved table whose last invoice is "INV-" + pad7(n), the proposal is "INV-" + pad7(n + 1) |
| InvoiceDao.NextNumberFallback | src/main/java/com/automasters/dao/InvoiceDAO.java:119-120 | a last number without the "INV-" prefix gives "INV-" + pad7(count + 1) |
| InvoiceDao.NextNumberParseError | src/main/java/com/automasters/dao/InvoiceDAO.java:114-115 | a suffix after "INV-" that is not an int makes the generation fail |
| InvoiceDao.NumberAfterSeed | src/main/java/com/automasters/dao/InvoiceDAO.java:103-116 | after the seed "INV-00001" comes "INV-0000002" |
| InvoiceDao.EmptyTableGivesSeed | src/main/java/com/automasters/dao/InvoiceDAO.java:98-103 | an empty table proposes "INV-00001" and is the first invoice |
| InvoiceForm.CheckMileage | src/main/java/com/automasters/ui/InvoicePanel.java:570-590 | mileage is accepted only when present and read as an int that is not negative, and the accepted value is the one read |
| InvoiceForm.CheckCustomerFields | src/main/java/com/automasters/ui/InvoicePanel.java:531-593 | when the customer checks pass, their result is the mileage check of the trimmed mileage text |
| InvoiceForm.CheckService | src/main/java/com/automasters/ui/InvoicePanel.java:324-355 | an accepted service has a trimmed description of at least three characters and a trimmed price that reads as a number above zero, which is the result |
| InvoiceForm.LinesOf | src/main/java/com/automasters/ui/InvoicePanel.java:466-471 | one line per table row with the row's serial, description and price, in row order |
| InvoiceForm.InvoicePanel.constructor | src/main/java/com/automasters/ui/InvoicePanel.java:30-38 | empty editable fields, an empty table, serial counter 1 and a zero total, so serials and total are consistent |
| InvoiceForm.InvoicePanel.GenerateNewInvoice | src/main/java/com/automasters/ui/InvoicePanel.java:298-311 | the proposed number fills the field, which is editable exactly when no invoice exists, and the counter restarts at 1; a numbering failure changes nothing |
| InvoiceForm.InvoicePanel.UpdateTotal | src/main/java/com/automasters/ui/InvoicePanel.java:380-386 | the shown total becomes the sum of the price column |
| InvoiceForm.InvoicePanel.AddService | src/main/java/com/automasters/ui/InvoicePanel.java:318-366 | a refusal of the customer fields or of the service is reported with its reason and changes nothing; otherwise one row numbered by the counter is appended with the trimmed description and the price as its cell reads back, the counter advances, the service fields clear and the total grows by that price; serials stay 1..n and the total matches the column |
| InvoiceForm.InvoicePanel.AppendService | src/main/java/com/automasters/ui/InvoicePanel.java:356-360 | the new row is appended under the counter, the counter advances, the service fields clear and the total grows by the row's price |
| InvoiceForm.InvoicePanel.RenumberRows | src/main/java/com/automasters/ui/InvoicePanel.java:372-374 | every row keeps its description and price and gets its position plus one as its serial |
| InvoiceForm.InvoicePanel.RemoveService | src/main/java/com/automasters/ui/InvoicePanel.java:368-378 | a row number outside the table changes nothing; otherwise exactly that row goes, the rows before it stay, the rows after it move up one and are renumbered, and the total drops by its price; serials stay 1..n and the counter n + 1 |
| InvoiceForm.InvoicePanel.ClearForm | src/main/java/com/automasters/ui/InvoicePanel.java:518-528 | the fields and the table are emptied and the total is zero; a proposed number fills the field and restores the serial invariant, a numbering failure leaves the number and counter |
| InvoiceForm.InvoicePanel.CreateInvoiceFromForm | src/main/java/com/automasters/ui/InvoicePanel.java:388-474 | fails with the first failing customer check, or when the table is empty; otherwise a new unsaved invoice with the trimmed fields, the vehicle number in capitals, the mileage, and one new line per row in row order whose prices sum to its total |
| InvoiceForm.InvoicePanel.BuildInvoice | src/main/java/com/automasters/ui/InvoicePanel.java:460-471 | a new unsaved invoice carrying the trimmed fields, the vehicle number in capitals and the mileage, whose lines are the rows in order and whose total is their sum |
| InvoiceForm.InvoicePanel.AddLines | src/main/java/com/automasters/ui/InvoicePanel.java:466-471 | the invoice's lines are one new line per row, in row order, each pointing back at it, and its total is the column's sum |
| InvoiceForm.InvoicePanel.SaveInvoice | src/main/java/com/automasters/ui/InvoicePanel.java:476-493 | a refused form or save leaves the store and every field of the form as they were; a saved invoice appends exactly the row the form describes and empties every text field, and on success the number field is editable exactly when the store, as it is after the save, holds no invoice; when numbering then fails, the number field, its editability and the serial counter keep their values |
| InvoiceForm.InvoicePanel.SaveCreated | src/main/java/com/automasters/ui/InvoicePanel.java:481-492 | a refused save changes neither the store nor any field of the form, nor the invoice; an accepted one appends the invoice's row and empties every text field; when numbering then fails, the number field, its editability and the serial counter keep their values |
| InvoiceForm.RemovedRowTotal | src/main/java/com/automasters/ui/InvoicePanel.java:370-376 | removing a row takes its price off the column's sum |
| InvoiceForm.RowsTotalIgnoresSerials | src/main/java/com/automasters/ui/InvoicePanel.java:372-376 | renumbering the rows leaves the column's sum unchanged |
| InvoiceForm.PriceCellReadsBack | src/main/java/com/automasters/ui/InvoicePanel.java:356-383 | the %.2f cell of a positive price reads back as the price rounded to the cent, within half a cent of what was typed |
| InvoiceForm.ZeroTotalText | src/main/java/com/automasters/ui/InvoicePanel.java:526 | "Rs. 0.00" is the label a zero total shows |
| InvoiceForm.TinyPriceShowsZero | src/main/java/com/automasters/ui/InvoicePanel.java:350-356 | a price above zero but below half a cent is accepted, yet its cell shows 0.00 and it adds nothing to the total |
| InvoiceForm.FormattedNumberAccepted | src/main/java/com/automasters/ui/InvoicePanel.java:595-613 | every "INV-" + seven-digit number below 10^7 passes the invoice number check |
| InvoiceForm.AcceptedNumberIsFormatted | src/main/java/com/automasters/ui/InvoicePanel.java:595-613 | every accepted invoice number is "INV-" + the seven-digit form of a number below 10^7 |
| InvoiceForm.SeedRejected | src/main/java/com/automasters/ui/InvoicePanel.java:604 | the five-digit seed "INV-00001" fails the seven-digit check |
| InvoiceForm.GeneratedNumberAccepted | src/main/java/com/automasters/ui/InvoicePanel.java:604 | while the last number passes the check and its successor is below 10^7, the generated number passes too |
| InvoiceForm.GeneratedNumberPastLimit | src/main/java/com/automasters/ui/InvoicePanel.java:604 | after "INV-9999999" the generated number has eight digits and fails the check |
| InvoiceForm.ContactNumberIsTenDigits | src/main/java/com/automasters/ui/InvoicePanel.java:416 | the contact check accepts exactly the ten-digit renderings of numbers below 10^10 |
| InvoiceForm.MileageAcceptedIffNonNegative | src/main/java/com/automasters/ui/InvoicePanel.java:438-452 | an int mileage is accepted exactly when it is not negative, and then as typed |
| InvoiceForm.CustomerFieldsAccepted | src/main/java/com/automasters/ui/InvoicePanel.java:531-593 | the customer checks pass exactly when the number is well formed, name and vehicle are present, the contact is ten digits and the mileage a non-negative int |
| InvoiceForm.ServiceAccepted | src/main/java/com/automasters/ui/InvoicePanel.java:324-355 | a service passes exactly when its trimmed description has three or more characters and its price reads as a positive number |
| ItemManagement.ItemManagementPanel.constructor | src/main/java/com/automasters/ui/ItemManagementPanel.java:20-24 | empty fields, an empty search, and the table listing every item in `findAll` order |
| ItemManagement.ItemManagementPanel.SearchItems | src/main/java/com/automasters/ui/ItemManagementPanel.java:238-264 | the table shows what the search of the trimmed term returns (every item for a blank term), which is exactly the stored items whose name contains the term |
| ItemManagement.ItemManagementPanel.LoadAllItems | src/main/java/com/automasters/ui/ItemManagementPanel.java:271-274 | the search field is cleared and the table lists every item in `findAll` order |
| ItemManagement.ItemManagementPanel.AddItem | src/main/java/com/automasters/ui/ItemManagementPanel.java:158-236 | a blank name, a one-character name, a name stored under any casing, or a declined similar name is refused and changes nothing; otherwise exactly one item with the trimmed name and description is appended, the form is cleared and the table reloaded; a refused save leaves the store as it was |
| ItemManagement.ItemManagementPanel.SaveNew | src/main/java/com/automasters/ui/ItemManagementPanel.java:216-235 | the store refuses a name whose key is taken and changes nothing; otherwise the item is appended under the next identity and the form is cleared and reloaded |
| ItemManagement.ItemManagementPanel.ResetForm | src/main/java/com/automasters/ui/ItemManagementPanel.java:224-230 | both fields are emptied and the table lists every item |
| ItemManagement.ItemManagementPanel.DeleteItem | src/main/java/com/automasters/ui/ItemManagementPanel.java:304-349 | the outcome is the check `DeleteRefusals` describes; a refusal leaves the store, the table and the search text, and every outcome leaves the name and description fields; otherwise exactly that item is deleted, the search text is cleared and the table lists every remaining item |
| ItemManagement.DeleteRefusals | src/main/java/com/automasters/ui/ItemManagementPanel.java:304-340 | a row outside the table, an item no longer stored, stock above zero (reporting that stock) and a declined confirmation refuse in that order, and the item is deleted exactly when none applies |
| ItemManagement.StockedItemKept | src/main/java/com/automasters/ui/ItemManagementPanel.java:320-331 | an item whose batches hold units in total (within `int` range) is never deleted, confirmed or not |
| ItemManagement.ItemManagementPanel.DeleteAndReload | src/main/java/com/automasters/ui/ItemManagementPanel.java:340-347 | the item with that identity is removed, the others stay in order, and the table is reloaded |
| ItemManagement.SearchListsMatches | src/main/java/com/automasters/ui/ItemManagementPanel.java:244-248 | the search lists exactly the stored items whose name contains the term |
| ItemManagement.AddedNameExists | src/main/java/com/automasters/ui/ItemManagementPanel.java:177-184 | once a name is added, the same name under any casing or surrounding white space is refused as a duplicate |
| ItemManagement.TrimmedStoreClashIsDuplicate | src/main/java/com/automasters/ui/ItemManagementPanel.java:177-218 | while stored names are trimmed, a name whose key is taken also counts as existing, so a name passing the duplicate check is never refused by the unique key |
| ItemManagement.SameKeySameLower | src/main/java/com/automasters/ui/ItemManagementPanel.java:178 | two trimmed names with the same key differ only in case |
| ItemManagement.SameNormalFormNeedsConfirmation | src/main/java/com/automasters/ui/ItemManagementPanel.java:186-214 | a name that normalises like a stored one is always among the similar items, so adding it needs confirmation |
| ItemManagement.DeleteKeepsOthers | src/main/java/com/automasters/ui/ItemManagementPanel.java:342 | a delete removes exactly the items with that identity and keeps every other one |
| StockIn.CheckStockFields | src/main/java/com/automasters/ui/StockInPanel.java:259-294 | an accepted form has a quantity, a buying price and a selling price all above zero, each the value its trimmed field reads as |
| StockIn.Reference | src/main/java/com/automasters/ui/StockInPanel.java:306 | an empty reference is absent; any other is kept as typed |
| StockIn.StockInPanel.constructor | src/main/java/com/automasters/ui/StockInPanel.java:25 | no item selected, empty fields and a zero total |
| StockIn.StockInPanel.UpdateTotalStock | src/main/java/com/automasters/ui/StockInPanel.java:242-249 | the label shows the selected item's `getTotalQuantity`, or 0 with no item; without overflow that is the item's total stock |
| StockIn.StockInPanel.OnItemSelected | src/main/java/com/automasters/ui/StockInPanel.java:233-240 | the item stored under the chosen name becomes the selection and its total is shown; an unknown name leaves no selection and shows 0 |
| StockIn.StockInPanel.AddStock | src/main/java/com/automasters/ui/StockInPanel.java:251-329 | the selected item never changes; the outcome is the check `AddStockRefusals` describes; a refusal stores nothing, keeps both identity counters, the form and the total label; otherwise one batch and one STOCK_IN record with the same quantity, prices and reference are appended, the item's stock rises by exactly the quantity and the form is cleared |
| StockIn.StockInPanel.Record | src/main/java/com/automasters/ui/StockInPanel.java:305-321 | the batch and then its record are appended, the item's stock rises by the quantity, the fields are emptied, the selected item stays and the new total is shown |
| StockIn.StoreAndLog | src/main/java/com/automasters/ui/StockInPanel.java:305-313 | exactly one batch and then exactly one STOCK_IN record with the same item, quantity, prices and reference are appended, and the item's total rises by the quantity |
| StockIn.AddStockRefusals | src/main/java/com/automasters/ui/StockInPanel.java:252-303 | no selected item, then the first failing form check, then a selling price below cost without confirmation refuse in that order, and stock is stored exactly when none applies |
| StockIn.StockInPanel.ClearForm | src/main/java/com/automasters/ui/StockInPanel.java:331-337 | the four fields are emptied |
| StockIn.StoreBatch | src/main/java/com/automasters/ui/StockInPanel.java:305-307 | a new batch is never refused, is appended under the next identity and raises its item's stock by its quantity |
| StockIn.StockFieldsAccepted | src/main/java/com/automasters/ui/StockInPanel.java:264-294 | the form is accepted exactly when the quantity reads as an int and both prices as numbers, all above zero |
| StockIn.ParseBeforeSign | src/main/java/com/automasters/ui/StockInPanel.java:270-294 | every parse comes before every sign check, so a malformed price is reported as such whatever the other fields hold |
| StockIn.RecordMatchesBatch | src/main/java/com/automasters/ui/StockInPanel.java:305-311 | the STOCK_IN record carries the batch's item, quantity, prices and reference |
| StockOut.CheckUse | src/main/java/com/automasters/ui/StockOutPanel.java:263-282 | an accepted answer is present and its trimmed text reads as an int above zero and no more than the batch holds, which is the result |
| StockOut.Detach | src/main/java/com/automasters/ui/StockOutPanel.java:256 | the entity handed out for a stored batch saves back as that same row |
| StockOut.ReduceListed | src/main/java/com/automasters/ui/StockOutPanel.java:288 | the listed batch, lowered by the units used, overwrites its stored row, or is inserted anew when that row has gone, and only then does the identity counter move on |
| StockOut.StockOutPanel.constructor | src/main/java/com/automasters/ui/StockOutPanel.java:28-32 | no item selected, no listed batches, an empty table and a zero total |
| StockOut.StockOutPanel.LoadBatches | src/main/java/com/automasters/ui/StockOutPanel.java:215-249 | with no item the table is emptied and the label reads 0; otherwise the item's batches with stock left are listed and shown, and the label shows their quantities summed in int arithmetic |
| StockOut.StockOutPanel.OnItemSelected | src/main/java/com/automasters/ui/StockOutPanel.java:207-213 | the item stored under the chosen name becomes the selection and its batches are listed; an unknown name leaves no selection, an empty table and 0 |
| StockOut.StockOutPanel.UseBatch | src/main/java/com/automasters/ui/StockOutPanel.java:251-310 | the selected item never changes; a row outside the listed batches, a cancelled or blank answer, a malformed number, zero or less, or more than the batch holds changes nothing (both stores, their identity counters and the panel); otherwise the batch is lowered by exactly that many (the identity counter moving on only if its row had gone), one STOCK_OUT record of them is appended for the selected item, the batches are listed again, with the table showing them and the label their sum, and the result is the batch's remaining quantity; with no item selected the log refuses the record after the lowering, the listed batch shows its new quantity, and the table, the label and the log stay as they were |
| StockOut.UseAccepted | src/main/java/com/automasters/ui/StockOutPanel.java:263-282 | an answer is accepted exactly when it reads as an int from 1 to the units the batch holds |
| StockOut.UseLowersTotal | src/main/java/com/automasters/ui/StockOutPanel.java:276-288 | using units of a batch leaves it between zero and its old quantity and lowers its item's stock by exactly those units; every other item's stock stays |
| StockOut.ListedTotalIsStock | src/main/java/com/automasters/ui/StockOutPanel.java:223-238 | with no negative quantities, the label equals `getTotalQuantity` of the item, overflow included |
| StockHistory.ChooseQuery | src/main/java/com/automasters/ui/StockHistoryPanel.java:220-243 | an item query is chosen only for a specific stored item, and narrows to that item's identity; a type query only for a specific type, and narrows to that type |
| StockHistory.StockHistoryPanel.constructor | src/main/java/com/automasters/ui/StockHistoryPanel.java:27-32 | both selections on "all" and the table listing every record, newest first |
| StockHistory.StockHistoryPanel.DisplayTransactions | src/main/java/com/automasters/ui/StockHistoryPanel.java:263-275 | one row is appended per record, in the order given, after the rows already there |
| StockHistory.StockHistoryPanel.FilterTransactions | src/main/java/com/automasters/ui/StockHistoryPanel.java:220-250 | the table holds exactly the rows of the query the two selections choose |
| StockHistory.StockHistoryPanel.LoadAllTransactions | src/main/java/com/automasters/ui/StockHistoryPanel.java:252-261 | the table holds exactly the rows of every record, newest first |
| StockHistory.StockHistoryPanel.ResetFilters | src/main/java/com/automasters/ui/StockHistoryPanel.java:277-282 | both selections return to "all" and the table lists every record |
| StockHistory.ChosenIsFilteredFindAll | src/main/java/com/automasters/ui/StockHistoryPanel.java:228-243 | whatever is chosen, the listing is `findAll` narrowed to the chosen condition: exactly the records it keeps, newest first |
| StockHistory.TableRows | src/main/java/com/automasters/ui/StockHistoryPanel.java:263-275 | the table has one row per record, and row i shows record i |
| StockHistory.AllSelectionsListEverything | src/main/java/com/automasters/ui/StockHistoryPanel.java:239-243 | "All Items" (or no item) with no specific type lists every record |
| StockHistory.UnknownItemListsEverything | src/main/java/com/automasters/ui/StockHistoryPanel.java:229-238 | an item name that is not stored lists every record and ignores the type |
| StockHistory.KnownItemNarrows | src/main/java/com/automasters/ui/StockHistoryPanel.java:229-235 | a stored item lists exactly its records, narrowed further to a specific type when one is chosen |
| StockHistory.TypeOnlyNarrows | src/main/java/com/automasters/ui/StockHistoryPanel.java:239-240 | with all items and a specific type, exactly the records of that type are listed |
| StockHistory.AbsentShownAsDash | src/main/java/com/automasters/ui/StockHistoryPanel.java:270-272 | a price cell is "-" exactly when the price is absent; the reference cell shows the reference, or "-" without one |
| ReceiptPrinting.Write | src/main/java/com/automasters/util/ReceiptPrinter.java:49-52 | a write puts the segment after everything already written; writing neither an item row nor a mileage line keeps a part free of both |
| ReceiptPrinting.Spaces | src/main/java/com/automasters/util/ReceiptPrinter.java:105 | k spaces |
| ReceiptPrinting.PadRight | src/main/java/com/automasters/util/ReceiptPrinter.java:105 | the text, kept whole and first, padded with spaces on the right to the width, never cut |
| ReceiptPrinting.PadLeft | src/main/java/com/automasters/util/ReceiptPrinter.java:105 | the text, kept whole and last, padded with spaces on the left to the width, never cut |
| ReceiptPrinting.Truncate | src/main/java/com/automasters/util/ReceiptPrinter.java:101-104 | the description column is at most 21 characters; the description is kept exactly when it fits, and one that does not fit becomes exactly 21 |
| ReceiptPrinting.ReceiptPrinter.constructor | src/main/java/com/automasters/util/ReceiptPrinter.java:37-39 | no printer name, so the default printer is wanted |
| ReceiptPrinting.ReceiptPrinter.Named | src/main/java/com/automasters/util/ReceiptPrinter.java:41-43 | the printer name is the one given |
| ReceiptPrinting.ReceiptPrinter.CreateLine | src/main/java/com/automasters/util/ReceiptPrinter.java:140-147 | the separator is the character 32 times and then a newline |
| ReceiptPrinting.ReceiptPrinter.PrintInvoice | src/main/java/com/automasters/util/ReceiptPrinter.java:48-135 | the stream opens with the initialise command and ends with the paper cut; its item rows are exactly one per invoice line in order, each the truncated description and the %.2f price; it holds one mileage line exactly when the mileage is present and above zero |
| ReceiptPrinting.ReceiptPrinter.PrintHeader | src/main/java/com/automasters/util/ReceiptPrinter.java:54-73 | the header writes neither item rows nor a mileage line |
| ReceiptPrinting.ReceiptPrinter.PrintCustomer | src/main/java/com/automasters/util/ReceiptPrinter.java:75-81 | the customer lines write neither item rows nor a mileage line |
| ReceiptPrinting.ReceiptPrinter.PrintHeadings | src/main/java/com/automasters/util/ReceiptPrinter.java:85-94 | the headings write neither item rows nor a mileage line |
| ReceiptPrinting.ReceiptPrinter.PrintItems | src/main/java/com/automasters/util/ReceiptPrinter.java:96-106 | one row per line, in line order, each the truncated description and the %.2f price |
| ReceiptPrinting.ReceiptPrinter.PrintFooter | src/main/java/com/automasters/util/ReceiptPrinter.java:108-131 | the footer writes no item row and no mileage line and ends with the paper cut |
| ReceiptPrinting.ReceiptPrinter.TestPrint | src/main/java/com/automasters/util/ReceiptPrinter.java:209-226 | the test page opens with the initialise command, ends with the paper cut, and holds no item row or mileage line |
| ReceiptPrinting.FirstIndex | src/main/java/com/automasters/util/ReceiptPrinter.java:175-188 | the position found is the first whose name satisfies the test, and none is found only when no name does |
| ReceiptPrinting.FirstMatch | src/main/java/com/automasters/util/ReceiptPrinter.java:175-188 | one lookup loop: the position found is the first whose name satisfies the test (the one `FirstIndex` gives), and none is found only when no name does |
| ReceiptPrinting.ReceiptPrinter.FindPrintService | src/main/java/com/automasters/util/ReceiptPrinter.java:170-192 | the choice is `ChooseService` of the configured name: a configured name that some service's name contains (ignoring case) picks the first such service; otherwise the first service named like an Epson receipt printer; otherwise the default |
| ReceiptPrinting.ListingRows | src/main/java/com/automasters/util/ReceiptPrinter.java:97-106 | row i of the listing is line i's description cut to the column and its price as %.2f, one row per line |
| ReceiptPrinting.PlainConcat | src/main/java/com/automasters/util/ReceiptPrinter.java:48-131 | two parts free of item rows and mileage lines make one |
| ReceiptPrinting.RowsOfReceipt | src/main/java/com/automasters/util/ReceiptPrinter.java:48-131 | the item rows of the assembled stream are exactly the item part |
| ReceiptPrinting.NoRowsBefore | src/main/java/com/automasters/util/ReceiptPrinter.java:52-94 | nothing before the item loop is an item row |
| ReceiptPrinting.RowsThenPlain | src/main/java/com/automasters/util/ReceiptPrinter.java:97-131 | the item part followed by the footer yields exactly the item part as its rows |
| ReceiptPrinting.MileageOfReceipt | src/main/java/com/automasters/util/ReceiptPrinter.java:48-131 | the mileage lines of the assembled stream are exactly the mileage part |
| ReceiptPrinting.TruncateKeepsStart | src/main/java/com/automasters/util/ReceiptPrinter.java:101-104 | a cut description is its first 19 characters and "..", and cutting again changes nothing |
| ReceiptPrinting.AmountFitsColumn | src/main/java/com/automasters/util/ReceiptPrinter.java:99-105 | an amount from 0 up to ten million keeps its %.2f text within the 10-character column |
| ReceiptPrinting.ItemRowFitsPaper | src/main/java/com/automasters/util/ReceiptPrinter.java:91-105 | with such an amount, every item row is exactly 32 characters and a newline |
| ReceiptPrinting.ConfiguredNameWins | src/main/java/com/automasters/util/ReceiptPrinter.java:173-187 | when a configured name matches some service, the choice `findPrintService` makes is the first matching service, and no receipt printer that does not match the name is ever chosen, even one listed before it |
| JavaNumbers.Wrap32 | src/main/java/com/automasters/ui/StockOutPanel.java:224-227 | the result is a 32-bit int, equal to the input when that fits, and congruent to it modulo 2^32 |
| JavaNumbers.Wrap32Congruent | src/main/java/com/automasters/dao/StockBatchDAO.java:60 | numbers that agree modulo 2^32 wrap to the same int |
| JavaNumbers.Wrap32Accumulate | src/main/java/com/automasters/ui/StockOutPanel.java:226-227 | adding in int arithmetic step by step gives the wrapped mathematical sum |
| JavaNumbers.ParseInt | src/main/java/com/automasters/ui/InvoicePanel.java:440 | a parsed value is a 32-bit int of text that starts with a digit or a sign; a run of digits within range reads as its value |
| JavaNumbers.FirstIndexOf | src/main/java/com/automasters/ui/InvoicePanel.java:349 | the position found holds the character and none before it does; with none found, no position does |
| JavaNumbers.ParseDecimal | src/main/java/com/automasters/ui/InvoicePanel.java:349 | empty text never reads as a number |
| JavaNumbers.NatDigits | src/main/java/com/automasters/dao/InvoiceDAO.java:116 | the decimal rendering of n is a non-empty run of digits without a leading zero whose value is n |
| JavaNumbers.ZeroPad | src/main/java/com/automasters/dao/InvoiceDAO.java:116 | the digits, padded on the left with zeros up to the width and never cut |
| JavaNumbers.ZeroPadValue | src/main/java/com/automasters/dao/InvoiceDAO.java:116 | zero padding does not change the value the digits denote |
| JavaNumbers.ParseFormatRoundTrip | src/main/java/com/automasters/dao/InvoiceDAO.java:115-116 | `Integer.parseInt` reads the %0Nd rendering of every int back as that int |
| JavaNumbers.ParseNonNegative | src/main/java/com/automasters/dao/InvoiceDAO.java:115-116 | the zero-padded rendering of a non-negative int reads back as it |
| JavaNumbers.ParseNegative | src/main/java/com/automasters/dao/InvoiceDAO.java:115-116 | the rendering of a negative int, sign first, reads back as it |
| JavaNumbers.NatDigitsLength | src/main/java/com/automasters/dao/InvoiceDAO.java:116 | a number below 10^k has at most k digits |
| JavaNumbers.FormatWidth | src/main/java/com/automasters/dao/InvoiceDAO.java:116 | a number from 0 below 10^width renders as exactly width digits |
| JavaNumbers.FormatOverflowsWidth | src/main/java/com/automasters/dao/InvoiceDAO.java:116 | from 10^width on, the rendering is longer than the width |
| JavaNumbers.DigitsValueBound | src/main/java/com/automasters/ui/InvoicePanel.java:604 | k digits denote a number below 10^k |
| JavaNumbers.DigitsValueInjective | src/main/java/com/automasters/ui/InvoicePanel.java:604 | two digit strings of one length and one value are the same |
| JavaNumbers.FormatOfDigits | src/main/java/com/automasters/ui/InvoicePanel.java:604 | rendering the value of a digit string to its own width gives the string back |
| JavaNumbers.ParseDecimalParts | src/main/java/com/automasters/ui/InvoicePanel.java:383 | "whole.fraction" reads as the whole part plus the fraction |
| JavaNumbers.ParseDecimalOfDigits | src/main/java/com/automasters/ui/InvoicePanel.java:349 | a plain run of digits reads as its integer value |
| JavaNumbers.ParseDecimalUnsigned | src/main/java/com/automasters/ui/InvoicePanel.java:349 | text that starts with a digit never reads as a negative number |
| JavaNumbers.Round2Close | src/main/java/com/automasters/ui/InvoicePanel.java:356 | %.2f moves a non-negative value by at most half a hundredth |
| JavaNumbers.Round2Positive | src/main/java/com/automasters/ui/InvoicePanel.java:350-356 | a positive value shows as positive exactly from half a hundredth on |
| JavaNumbers.Round2OfCents | src/main/java/com/automasters/ui/InvoicePanel.java:356 | a value that already has two decimals is shown as it is |
| JavaNumbers.CentsTextRoundTrip | src/main/java/com/automasters/ui/InvoicePanel.java:356-383 | "whole.ff" reads back as the hundredths over a hundred |
| JavaNumbers.FormatFixed2RoundTrip | src/main/java/com/automasters/ui/InvoicePanel.java:356-383 | reading back what %.2f printed gives the value rounded to the cent |
| JavaNumbers.FormatFixed2Zero | src/main/java/com/automasters/ui/InvoicePanel.java:385 | zero prints as "0.00" |
| Text.LowerChar | src/main/java/com/automasters/entity/Item.java:34 | a lower-cased character is never upper-case; upper-case letters become lower-case and every other character stays |
| Text.UpperChar | src/main/java/com/automasters/ui/InvoicePanel.java:464 | an upper-cased character is never lower-case; lower-case letters become upper-case and every other character stays |
| Text.ToLower | src/main/java/com/automasters/entity/Item.java:34 | lower-casing keeps the length and lower-cases each character in place |
| Text.ToUpper | src/main/java/com/automasters/ui/InvoicePanel.java:464 | upper-casing keeps the length and upper-cases each character in place |
| Text.TrimStart | src/main/java/com/automasters/entity/Item.java:34 | drops exactly the leading run of characters up to U+0020 |
| Text.TrimEnd | src/main/java/com/automasters/entity/Item.java:34 | drops exactly the trailing run of characters up to U+0020 |
| Text.ToLowerIdempotent | src/main/java/com/automasters/entity/Item.java:34 | lower-casing twice is lower-casing once |
| Text.TrimIsTrimmed | src/main/java/com/automasters/entity/Item.java:34 | a trimmed string has no trimmable character at either end |
| Text.TrimOfTrimmed | src/main/java/com/automasters/entity/Item.java:34 | a string without trimmable ends is its own trim |
| Text.TrimIdempotent | src/main/java/com/automasters/entity/Item.java:34 | trimming twice is trimming once |
| Text.TrimLowerCommute | src/main/java/com/automasters/entity/Item.java:34 | trimming and lower-casing commute |
| Text.ContainsAt | src/main/java/com/automasters/dao/ItemDAO.java:63-65 | a string contains every substring found at some index |
| Text.ContainsSelf | src/main/java/com/automasters/dao/ItemDAO.java:63-65 | every string contains itself |
| Text.StrLeqTotal | src/main/java/com/automasters/dao/ItemDAO.java:55 | name order is total |
| Text.StrLeqTransitive | src/main/java/com/automasters/dao/ItemDAO.java:55 | name order is transitive |
| Seqs.RemoveFirst | src/main/java/com/automasters/entity/Invoice.java:62 | `List.remove` of an absent element changes nothing; of a present one it drops exactly one occurrence |
| Seqs.RemoveFirstIndex | src/main/java/com/automasters/entity/Invoice.java:62 | the occurrence `List.remove` drops is the first: an index holding the element with no copy before it, the rest kept in order |
| Seqs.RemoveFirstAt | src/main/java/com/automasters/entity/Invoice.java:62 | some index holds the first occurrence, and removing drops exactly it, keeping the rest in order |
| Seqs.SortPermutation | src/main/java/com/automasters/dao/ItemDAO.java:55 | `ORDER BY` only reorders the rows |
| Seqs.SortSorted | src/main/java/com/automasters/dao/ItemDAO.java:55 | `ORDER BY` under a total preorder returns the rows in that order |

## Left out

- Hibernate sessions, transactions, commit and rollback are not modelled. Each table is an in-memory sequence of rows, and each HQL query becomes a filter followed by a sort.
- Database failures other than the unique keys on `item_name_lower` and `invoice_number` are not modelled.
- Foreign keys between tables are not modelled. Deleting an item does not touch its batches or log records.
- A failure between the two writes of a stock-in or stock-out is not modelled. The batch write and the log write are separate database transactions in the code. The model runs them one after the other; only the log's refusal of a record without an item is kept (`LogRefused`).
- Swing layout, styling, focus, listeners, renderers and dialog texts are left out. Confirmations and typed answers are boolean and text inputs.
- The item search box of the stock screens, which fills their item lists, is left out. The selected item name is an input to `OnItemSelected`.
- Several table columns are not modelled:
  - the date and item-name columns of the history table;
  - the date and price columns of the batch table;
  - the date column of the item table.
- The clock (`LocalDateTime.now()`) is a parameter `now`. The invoice form's date field is left out.
- Stock-in writes the batch and its log record with the same `now`. In the code each constructor reads the clock itself.
- `InvoicePanel`'s constructor calls `generateNewInvoice`; the modelled constructor leaves the fields empty. `GenerateNewInvoice` is modelled on its own.
- `saveAndPrintInvoice` is not modelled as a whole. Its two halves are `SaveCreated` and `ReceiptPrinter.PrintInvoice`.
- The serial counter of the invoice form is an unbounded integer. Java's `int` overflow after 2^31 services is not modelled.
- Floating point is not modelled.
  - Prices, totals and similarity percentages are exact reals.
  - `Double.parseDouble` is modelled only on plain decimal text: an optional sign, digits and an optional fraction. Exponents, `NaN`, `Infinity`, hexadecimal forms and type suffixes are read as malformed.
- `%.2f` uses '.' as the decimal separator. Locales with another separator are not modelled.
- Case mapping covers ASCII letters only. `trim` removes characters up to U+0020, as Java does.
- SQL `LIKE` wildcards typed into a search term are not modelled. A search is a plain substring test.
- String order for `ORDER BY i.itemName` is code-point order (`Text.StrLeq`). The database's collation decides that order in the code, and it is not modelled.
- `Seqs.Sort` is a stable sort: rows with equal keys keep their table order. SQL `ORDER BY` leaves the order of such rows unspecified. So the equalities between query results, such as `StockTransactionDao.ItemAndTypeIsIntersection` and `ItemDao.SearchIsFilteredFindAll`, hold for this choice of tie order, not for every database.
- Strings are sequences of Unicode code points. Java's `length()`, `substring` and `%-21s` count UTF-16 code units. So text with characters outside the Basic Multilingual Plane (emoji, for example) measures shorter here, and it is never cut inside a surrogate pair. The four members below are affected.
- `ItemManagement.ItemManagementPanel.AddItem`: the `length() < 2` test counts code points. A name of one emoji is refused as too short here, where the code saves it.
- `InvoiceForm.CheckService`: the `length() < 3` test counts code points. A description of one emoji and one letter is refused here, where the code accepts it.
- `ReceiptPrinting.Truncate`: the 21-character limit and the 19-character cut count code points. A description of 11 emoji (22 code units) is kept whole here. The code cuts it to 19 code units, which splits a surrogate pair, and appends "..".
- `ReceiptPrinting.PadRight`: `%-21s` pads to 21 code units, and the model pads to 21 code points. A description with emoji gets more spaces here than in the code.
- Only the structure of the receipt stream is modelled.
  - Literal text is kept as written.
  - The date line and the grouped `%,d km` mileage line are tokens holding their value.
  - An item row keeps its two column texts.
  - The padded customer fields, the column headings and the `%10.2f` total are written out as text.
  - `getBytes` and its platform charset are left out.
  - A null customer field printed as "null" is left out.
- `printRaw`, the `javax.print` lookup, and `getAvailablePrinters` are left out. Only the printer choice is modelled, over the list of installed printer names.
- When no printer matches and there is no default printer, the code fails in `printRaw`. The model returns `DefaultService` and does not model that failure.
- `InvoiceDAO.findById` is not modelled. It is a primary-key lookup with no caller among the modelled operations.
- The setters of `StockTransaction` are not modelled. Nothing in the application calls them after construction.
- `HistoryPanel`, `DailyInvoiceReportPanel`, `InventoryOverviewPanel`, `MainFrame` and `App` are not part of this model. They are display and navigation code over the queries modelled here.
- PDF reports are not part of this model.
- `JavaNumbers.ParseInt` reads only the ASCII digits 0-9. `Integer.parseInt` also accepts the other Unicode decimal digits (Arabic-Indic, full-width and so on). So quantity, use and mileage fields, and invoice-number suffixes, written in those digits are malformed numbers here, where the code reads them.
- `currentBatches` of the stock-out panel is `null` until the first `loadBatches`. The model starts it as the empty list; no operation reads it before it is loaded.
- `JavaNumbers.ParseDecimal`: its contract says only that empty text never parses. What it reads is given by the lemmas `ParseDecimalParts`, `ParseDecimalOfDigits`, `ParseDecimalUnsigned` and `FormatFixed2RoundTrip`.
