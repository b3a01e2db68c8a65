# mcp-odoo tool logic in Dafny

This project models the pure logic inside the tool handlers of `mcp-odoo`, an MCP server that gives an assistant access to an Odoo ERP backend. It covers the sales, purchase, inventory-turnover and HR tools and the request and response records they exchange:

- how each handler turns optional filter fields into an Odoo search domain;
- how it validates `YYYY-MM-DD` dates and does calendar arithmetic;
- how it builds the `[0, 0, vals]` line commands of a create payload;
- how it aggregates the records the backend returned into its reports. That means per-key roll-ups with the `"Desconocido"` fallback group, stable descending sorts with top-10 cuts, period-over-period change, supplier delivery metrics, and inventory turnover and days of inventory.

The backend is not modelled. A handler receives the backend's replies as parameters: `Envelope` values, where `Failure` carries the text of the raised exception. It returns its result together with the sequence of calls it issued (`Backend.Run`). That makes statements like "an invalid date is rejected before any call" and "the count uses the same domain as the page" into contracts.

Modules follow the program's structure:

- **Wrappers:** `Option` and `Envelope`.
- **Dates:** a strict `YYYY-MM-DD` parser and formatter over proleptic-Gregorian day ordinals, numbered as Python's `date.toordinal` numbers them.
- **Seqs:** sums, and a stable descending sort.
- **Domains:** `DomainCondition`, `SearchDomain`, and the Polish-notation semantics of a domain.
- **Models:** the pydantic records with their defaults.
- **Backend:** the call trace.
- **Orders:** shared by sales and purchase: filter domain, paged search, create payload, analysis period domain.
- **Grouping:** the dictionary roll-up and top-N selection.
- **Sales**, **Purchase**, **Inventory**, **Hr:** the four tool families.

## Model

| member | source | states |
|---|---|---|
| Domains.ToTuple | src/odoo_mcp/models.py:19-21 | a condition becomes a three-element list `[field, operator, value]` that reads back as the same condition |
| Domains.TupleRoundTrip | src/odoo_mcp/models.py:19-21 | a list reads back as a condition exactly when it is that condition's tuple |
| Domains.ToDomainList | src/odoo_mcp/models.py:32-34 | one tuple per condition, same length, same order, each reading back as its condition |
| Domains.LeavesAreConjunction | src/odoo_mcp/models.py:27-30 | a domain of bare conditions selects exactly the records satisfying all of them (implicit AND) |
| Domains.DefaultSearchDomainSelectsAll | src/odoo_mcp/models.py:27-34 | the default `SearchDomain` yields the empty domain, which selects every record |
| Domains.AndPairThenConjunction | src/odoo_mcp/tools_hr.py:90-99 | `["&", a, b]` followed by further conditions selects what `a`, `b` and all the others select together |
| Models.ToResponse | src/odoo_mcp/models.py:44-51 | `success` is set iff the envelope succeeded, and then only `result` is set, otherwise only `error`; the record reads back as the envelope |
| Models.ResponseRoundTrip | src/odoo_mcp/models.py:67-74 | every well-formed response record is the image of exactly one envelope |
| Models.Defaults | src/odoo_mcp/models.py:91-99 | order and journal filters default to limit 20, offset 0 and nothing else set; line price defaults to unset; journal lines to 0 debit and credit; response records to no result and no error |
| Dates.FromOrdinal | src/odoo_mcp/tools_sales.py:189-194 | every day ordinal is a valid calendar date that maps back to that ordinal |
| Dates.FromToOrdinal | src/odoo_mcp/tools_sales.py:189-194 | ordinals are a bijection with valid dates |
| Dates.Format | src/odoo_mcp/tools_hr.py:87 | `strftime("%Y-%m-%d")` gives ten characters with dashes at positions 4 and 7 |
| Dates.ParseFormat | src/odoo_mcp/tools_hr.py:85-87 | a formatted date parses back to the same day |
| Dates.FormatParse | src/odoo_mcp/tools_sales.py:169-170 | a text that parses is the formatting of the day it denotes |
| Dates.Minus | src/odoo_mcp/tools_hr.py:86 | subtracting days stays on the calendar or fails; when it succeeds, adding the days back gives the original day |
| Dates.DaysBetween | src/odoo_mcp/tools_purchase.py:221 | `(a - b).days` is the number of days that, subtracted from `a`, gives `b` |
| Dates.DatePart | src/odoo_mcp/tools_purchase.py:218-219 | `split(" ")[0]` is a prefix of the text containing no space |
| Seqs.SortDesc | src/odoo_mcp/tools_sales.py:247-251 | `sorted(..., reverse=True)` yields a non-increasing permutation of its input |
| Seqs.SortDescStable | src/odoo_mcp/tools_sales.py:247-251 | items with equal keys keep their input order |
| Seqs.SortDescTies | src/odoo_mcp/tools_sales.py:247-251 | when a rank increases along the input, it increases between any two sorted items of equal key: ties leave the sort in input order |
| Seqs.SortDescSum | src/odoo_mcp/tools_inventory.py:390-398 | sorting does not change any sum over the items |
| Seqs.Take | src/odoo_mcp/tools_sales.py:254 | `[:n]` is a prefix of length `min(n, len)` |
| Grouping.Accumulate | src/odoo_mcp/tools_sales.py:231-244 | one bucket per distinct key, each named after its key's first record and counting, summing and collecting the delays of exactly that key's records; buckets ordered by the position of their key's first record (dictionary insertion order) |
| Grouping.AccumulateTotals | src/odoo_mcp/tools_purchase.py:197-214 | the buckets' counts, quantities, amounts and delays add up to the records' |
| Grouping.TopBuckets | src/odoo_mcp/tools_sales.py:246-255 | non-increasing by amount, distinct ids, each bucket summarising its group, `min(limit, keys)` long, all keys when unlimited, no omitted group larger than a kept one, and buckets of equal amount ordered by their key's first record |
| Grouping.AllBucketsTotals | src/odoo_mcp/tools_purchase.py:257-274 | listing every group accounts for every record, the whole amount and every delay |
| Orders.OrderSearchDomain | src/odoo_mcp/tools_sales.py:36-56 | fails exactly when a given date does not parse, with the raw value in the message; otherwise one condition per truthy field, in the order partner, date from, date to, state |
| Orders.OrderSearchDomainSelects | src/odoo_mcp/tools_sales.py:36-56 | the domain selects exactly the records passing every given filter |
| Orders.SearchOrders | src/odoo_mcp/tools_sales.py:65-87 | an invalid date makes no call; otherwise `search_read` with the filter's pagination, then `search_count` only after it succeeded; result is page, its length and the count; each failure is propagated |
| Orders.CountUsesSearchDomain | src/odoo_mcp/tools_purchase.py:66-76 | the count is taken over the same domain as the page |
| Orders.DefaultFilterSearch | src/odoo_mcp/models.py:91-99 | a default filter searches the empty domain, 20 records from offset 0, unordered |
| Orders.LineCommand | src/odoo_mcp/tools_sales.py:121-129 | `[0, 0, vals]` with `price_unit` present iff given, reading back as the input line |
| Orders.LineCommands | src/odoo_mcp/tools_sales.py:120-131 | one command per line, same order, each reading back as its line |
| Orders.OrderVals | src/odoo_mcp/tools_sales.py:107-131 | fails iff a given order date does not parse; otherwise partner, commands and the date exactly when given |
| Orders.CreateOrder | src/odoo_mcp/tools_sales.py:105-148 | no call on a bad date; `create` then `read` of the new id's name; success iff both succeed and the read is non-empty, else the raised error or `list index out of range` |
| Orders.PeriodDomainSelects | src/odoo_mcp/tools_sales.py:175-179 | the analysis domain selects orders within both bounds and in one of the confirmed states |
| Sales.SearchSalesOrders | src/odoo_mcp/tools_sales.py:34-87 | every call is a read or count on `sale.order`, the first with the filter domain and the eight search fields |
| Sales.CreateSalesOrder | src/odoo_mcp/tools_sales.py:105-148 | the `create` on `sale.order` carries one `product_uom_qty` command per input line in order; the result's id is the created id |
| Sales.PreviousPeriod | src/odoo_mcp/tools_sales.py:189-194 | defined iff both subtractions stay on the calendar; ends the day before `from` and spans the same number of days |
| Sales.PreviousPeriodBefore | src/odoo_mcp/tools_sales.py:189-194 | for a forward period the previous one ends before it starts and together they cover twice its length |
| Sales.PreviousFetchBounds | src/odoo_mcp/tools_sales.py:196-200 | the date texts written into the previous-period search parse back to that period |
| Sales.PercentChange | src/odoo_mcp/tools_sales.py:213-215 | `change * previous == (current - previous) * 100` for a positive previous total, else exactly 0 |
| Sales.PercentChangeSign | src/odoo_mcp/tools_sales.py:213-215 | the change is positive, zero or negative as the total rose, stayed or fell, and never below -100 for a non-negative total |
| Sales.LineEntries | src/odoo_mcp/tools_sales.py:232-234 | a line with no product is counted under key 0 named "Desconocido" |
| Sales.PartyEntries | src/odoo_mcp/tools_sales.py:261-262 | an order with no customer (salesperson) is counted under key 0 named "Desconocido" |
| Sales.ProductStats | src/odoo_mcp/tools_sales.py:230-255 | at most ten products by non-increasing amount, distinct ids, each with the name of its first line and the sums of its lines' quantities and subtotals; no omitted product sold more than a listed one; ties in first-appearance order |
| Sales.PartyStats | src/odoo_mcp/tools_sales.py:257-311 | the same for customers (ten at most) and salespersons (all of them), with order counts, ties in first-appearance order |
| Sales.SalespersonTotals | src/odoo_mcp/tools_sales.py:285-311 | salesperson order counts add up to the number of orders and their amounts to the total |
| Sales.OrderGrouping | src/odoo_mcp/tools_sales.py:217-311 | a grouping from the orders alone is produced iff grouping by customer or salesperson; "customer" gives the customer statistics and "salesperson" the salesperson statistics |
| Sales.Summary | src/odoo_mcp/tools_sales.py:208-215 | counts and totals of both periods, and the change between the totals |
| Sales.AnalyzePeriod | src/odoo_mcp/tools_sales.py:174-336 | current fetch first; a previous period off the calendar fails after it; then the previous fetch, whose failure ends the run after two calls with its error; lines fetched only to group a non-empty period by product, their failure ending the run after three calls with its error; success iff every needed reply succeeded; `grouped_data` present iff a group list was produced |
| Sales.EmptyPeriodReport | src/odoo_mcp/tools_sales.py:208-336 | a period without orders succeeds with zero count and total, two calls, and no product grouping |
| Sales.AnalyzeSalesPerformance | src/odoo_mcp/tools_sales.py:166-172 | invalid bounds fail with the fixed message and no calls; valid bounds make at least one call |
| Purchase.SearchPurchaseOrders | src/odoo_mcp/tools_purchase.py:34-88 | every call is a read or count on `purchase.order`, the first with the filter domain and the ten search fields |
| Purchase.CreatePurchaseOrder | src/odoo_mcp/tools_purchase.py:106-149 | the `create` on `purchase.order` carries one `product_qty` command per input line in order |
| Purchase.SupplierDomainSelects | src/odoo_mcp/tools_purchase.py:175-184 | orders within both bounds in a confirmed state, and from one of the suppliers only when a non-empty list is given |
| Purchase.OrderDelay | src/odoo_mcp/tools_purchase.py:217-221 | a delay exists iff both dates are set; it fails iff a date part does not parse (effective first); the planned day is the effective day minus the delay |
| Purchase.SupplierEntries | src/odoo_mcp/tools_purchase.py:196-238 | one entry per order in order, or the error of the first order whose dates do not parse |
| Purchase.OnTimeOrLate | src/odoo_mcp/tools_purchase.py:235-238 | every delivery counts as exactly one of on time or late |
| Purchase.MeanDelay | src/odoo_mcp/tools_purchase.py:243-245 | the mean times the number of deliveries is the summed delay; 0 without deliveries |
| Purchase.OnTimeRate | src/odoo_mcp/tools_purchase.py:247-252 | between 0 and 100; the on-time share in percent, 0 without deliveries |
| Purchase.SupplierRow | src/odoo_mcp/tools_purchase.py:240-255 | the row keeps the bucket's id, name, count and amount, and splits its deliveries into on-time and late with the rate and mean above |
| Purchase.SupplierStats | src/odoo_mcp/tools_purchase.py:196-262 | every supplier once, by non-increasing amount with ties in first-appearance order, with the count, amount, on-time/late split, mean delay and on-time rate of its own orders |
| Purchase.SupplierTotals | src/odoo_mcp/tools_purchase.py:197-214 | supplier counts, amounts and deliveries add up over all entries |
| Purchase.DeliveredSum | src/odoo_mcp/tools_purchase.py:217-238 | the entries carrying delays number the orders with both dates set |
| Purchase.AnalyzeSupplierPerformance | src/odoo_mcp/tools_purchase.py:167-280 | invalid bounds fail with no call; otherwise one fetch; success iff the fetch and every date parse succeed; suppliers, supplier count, order count and total as computed from the fetched orders |
| Purchase.SupplierReportTotals | src/odoo_mcp/tools_purchase.py:265-277 | in a report, supplier order counts add up to the summary's order count, amounts to its total, and deliveries to the delivered orders |
| Inventory.ProductDomainSelects | src/odoo_mcp/tools_inventory.py:254-261 | storable products, in the id list when one is given non-empty, in the category when a non-zero one is given |
| Inventory.UnitCost | src/odoo_mcp/tools_inventory.py:294 | a set non-zero unit price is used, otherwise the standard price |
| Inventory.CogsAppend | src/odoo_mcp/tools_inventory.py:294 | the cost of goods sold is additive over batches of moves |
| Inventory.CogsNonNegative | src/odoo_mcp/tools_inventory.py:294 | non-negative quantities and prices give a non-negative cost |
| Inventory.AverageValue | src/odoo_mcp/tools_inventory.py:296-364 | the mean stock value at the bounds when both valuation reads succeed (missing rows count 0); otherwise, after the valuation calls made, the quantity reads, giving mean quantity times standard price, or their failure |
| Inventory.Turnover | src/odoo_mcp/tools_inventory.py:366-371 | `ratio * avg == cogs` for a positive average value, else 0 |
| Inventory.DaysOfInventory | src/odoo_mcp/tools_inventory.py:373-376 | `days_inventory * ratio == days` for a positive ratio, else 0 |
| Inventory.DaysOfInventoryFromValue | src/odoo_mcp/tools_inventory.py:366-376 | with positive cost and value, days of inventory times cost equals days times average value; otherwise 0 |
| Inventory.ProductRun | src/odoo_mcp/tools_inventory.py:278-388 | moves fetched first, then the value reads; a failure propagates; the entry carries the product's identity, its category or "Sin categoría", its cost, value, ratio and days |
| Inventory.ProductsRun | src/odoo_mcp/tools_inventory.py:276-388 | one entry per product in order after every product's calls in turn, or the error of the first product whose calls fail after the calls of the products up to it |
| Inventory.Table | src/odoo_mcp/tools_inventory.py:379-388 | the id-keyed dictionary: distinct ids, exactly the ids of the rows, only rows that were computed |
| Inventory.TableOfDistinct | src/odoo_mcp/tools_inventory.py:379-388 | with distinct ids the dictionary holds every row in order |
| Inventory.Report | src/odoo_mcp/tools_inventory.py:390-425 | entries are a permutation of the dictionary by non-increasing ratio, rows of equal ratio in dictionary order; totals are sums over it; overall ratio and days come from the totals, not from per-product ratios |
| Inventory.OneEntryPerProduct | src/odoo_mcp/tools_inventory.py:379-425 | products with distinct ids give exactly one entry each |
| Inventory.AnalyzePeriod | src/odoo_mcp/tools_inventory.py:263-271 | product fetch first; its failure propagates; no products fails with the fixed message; otherwise the per-product calls and the report |
| Inventory.AnalyzeInventoryTurnover | src/odoo_mcp/tools_inventory.py:247-252 | invalid bounds fail with the fixed message and no calls; valid ones analyse a period of `(to - from).days + 1` days |
| Hr.Results | src/odoo_mcp/tools_hr.py:42-44 | one result per `(id, name)` pair, same order, same id and name |
| Hr.SearchEmployee | src/odoo_mcp/tools_hr.py:21-47 | one `name_search` on `hr.employee` with the name and limit (20 by default); a failure gives an error response with its text, a success the pairs as results in order |
| Hr.HolidayDomainSelects | src/odoo_mcp/tools_hr.py:90-99 | leaves starting by the end date's evening and stopping from the previous day's evening, of the employee when a non-zero id is given |
| Hr.HolidaysFrom | src/odoo_mcp/tools_hr.py:84-110 | the first calendar day raises "date value out of range"; otherwise one search with the shifted domain and the reply as response |
| Hr.SearchHolidays | src/odoo_mcp/tools_hr.py:51-82 | the start date is checked before the end date, each with its own message and no call; the employee filter is absent by default |
| Hr.HolidaySearchDayBefore | src/odoo_mcp/tools_hr.py:85-95 | a search that reaches the backend writes a date that parses back to the day before the start date |

## Left out

- Remote calls are not executed. `search_read`, `execute_method`, `search_count`, `create`, `read` with a `to_date` context and `name_search` are recorded as `Backend.Call` values, and their replies are parameters. Field projection, pagination and ordering on the server side are not modelled.
- `check_product_availability` and `create_inventory_adjustment` (`tools_inventory.py` lines 18-228) are RPC orchestration with a backend-version probe and little pure logic.
- The accounting tools are not part of this model. Their request records (`JournalEntryFilter`, `JournalEntryLineCreate`) appear only as datatypes with their defaults.
- `validation.py`, `prompts.py`, `resources.py`, `extensions.py` and `__init__.py` are an integration script, static text, stubs and registration.
- Amounts are `real`. Float rounding and `round(percent_change, 2)` are presentation and are not modelled: `Sales.Summary` keeps the exact change.
- `Dates.Parse` is strict: four-digit year and two-digit month and day, ASCII digits only. Python's `strptime` is more lenient: it also accepts one-digit months and days, a space-padded day or month (`" 5"`), and non-ASCII Unicode decimal digits. `strftime("%Y")` of a year below 1000 is platform-dependent; `Dates.Format` zero-pads it.
- Orders.OrderSearchDomain: the error for a bad date is the message of the first bad field only, as in the source. No other `ValueError` text is modelled.
- Purchase.OrderDelay: the failure text is `strptime`'s mismatch message only. Other ways the date parts can fail, such as an out-of-range day reported as "unconverted data", are reduced to that one message.
- Pydantic coercion of the backend's records (`Holiday(**holiday)`, `EmployeeSearchResult`) is not modelled. Replies arrive already typed, and a record that would fail validation is not represented.
- Missing keys in backend records (a `KeyError` from `order["amount_total"]`, say) are not modelled: fetched records always carry their fields.
- Inventory.AverageValue: a failure while reading the first row (e.g. a missing `stock_value` key) is not distinguished from a failed call. Only failed calls trigger the quantity fallback.

Where the behaviour described for the program and its code differ, the model follows the code:
- the customer grouping is cut to the top ten;
- the analysis date errors carry no raw value;
- in `search_holidays` the day before a start date of 0001-01-01 is computed outside any exception handler, so the tool raises instead of answering (`Hr.HolidaysFrom` returns `Raised`).
