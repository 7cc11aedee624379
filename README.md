# Bid-Tool quoting backend: a verified model of its core

The backend of this AV/LV quoting tool keeps quotes in MySQL. A quote holds
rooms. A room holds systems, labor lines and service lines. A system holds
equipment lines. This project models the parts of the backend that compute
something or keep history:

- **Financial breakdown.** `GET /quotes/{id}/financials`
  (`financials.dfy`). It prices every equipment, labor and service line. It
  rolls them up per system and per room, multiplies each room by its
  quantity, and totals the quote with tax, grand total and margin percent.
- **Listing endpoints.** `GET /equipment/system/{id}` and
  `GET /labor/room/{id}` (`pricing.dfy`). They price each fetched row with
  the same formulas.
- **Bill of materials.** `GET /quotes/{id}/bom` (`bom.dfy`). It groups every
  equipment line of the quote by item name and vendor.
- **Quote history** (`versioning.dfy`):
  - `record_quote_snapshot`;
  - the snapshot-then-write behaviour of `PUT /quotes/{id}` and
    `POST /quotes/{id}/restore-version/{v}`;
  - the snapshot-free writes of `POST /quotes/{id}/apply-template/{t}` and
    `PUT /quotes/{id}/status`.
- **Settings** (`config.dfy`). `_split_csv`, the derived fields of
  `Settings`, and the process-wide cache behind `get_settings`.
- **Start-up seeding** (`seeding.dfy`). The bootstrap admin and the default
  departments that `init_db` inserts when they are absent.

## How the model is built

**Money.** Amounts the code has not rounded are exact `real`s. Every value
the code passes through `round(x, 2)` is kept as an `int` count of
hundredths (`Money.Round2`, half-to-even like Python's `round`). Because of
this the model can state exactly when re-rounding loses nothing.

**Database rows.** The rows the endpoints fetch come in as a value
(`QuoteData.Quote`), with the tree of rows beneath it in fetch order.

**NULL columns.** The quote's status, default markup, tax rate and tax flag
are nullable columns with defaults, so each is an `Option` (None is a
NULL). An update may send null for any of them, and a restore copies a null
stored under a snapshot key; the `.get` default applies only when the key is
absent. Reading a NULL where the code does arithmetic or `float(...)` on it
raises, and the model returns `Failure(ServerError)` there:

- the breakdown fails when some line falls back to a NULL default markup, or
  when tax is charged at a NULL rate (`Financials.ReadsNull`); a NULL tax
  flag charges no tax;
- the equipment listing fails when the owning quote's markup is NULL.

**Loops and dictionaries.** The endpoints build their responses by mutating
dictionaries inside nested `for` loops. The model keeps those loops as
methods with `while` loops, one method per level:

- `PriceSystem`, `PriceSystems`, `PriceLabor`, `PriceServices`, `PriceRoom`
  and `PriceRooms` for the breakdown;
- `AddSystemLines` and `AddRoom` for the bill of materials;
- the two listing methods.

Each method is proved to return what a specification function describes
(`SystemDataOf`, `RoomDataOf`, `RoomsOf`, `Summarize`, `ListedEquipmentOf`,
…). The properties are then lemmas about those functions.

**Tables.** The two tables the versioning endpoints write (quotes by id, and
the history rows in insertion order) are the fields of the class
`Versioning.QuoteStore`. Its methods state the whole new state. They also
keep the invariant that every history row belongs to a stored quote, which
the `ON DELETE CASCADE` foreign key guarantees.

**Configuration.** The environment is a map from variable name to value.

**Errors.** The endpoints' 404 and 400 responses are `Failure(NotFound)` and
`Failure(BadRequest)`. `Failure(ServerError)` is an unhandled exception (a
500). The breakdown and the equipment listing raise one when they pass a NULL
column to `float()` (see NULL columns above). The restore endpoint would
raise one on a history row whose quote is gone; the store's invariant rules
that case out.

### Behaviour of the code worth knowing

Each point below is proved about the model, which follows the code.

- **First occurrence wins in the bill of materials.** A group keeps the
  description, vendor and unit cost of the FIRST line with its key. Later
  lines only add quantity and a location. The group's cost is its total
  quantity at that first unit cost (`FirstUnitCostWins`).
- **Services and labor do not scale exactly with room quantity.** Room
  quantity multiplies the equipment totals exactly. Services and labor are
  multiplied before rounding. A room of quantity 2 can therefore carry one
  hundredth more in services than twice a room of quantity 1
  (`RoomServicesNeedNotScale`). The scaling is exact when the unscaled
  services total is a whole number of hundredths
  (`RoomServicesScaleForWholeHundredths`).
- **Services are priced per unit of the room.** Services take their
  percentage of the room's equipment price before the quantity multiply.
  So the service lines of a room of quantity n are those of a single room.
- **Tax ignores the tax-exempt flag.** Tax is charged on the whole equipment
  sell price whatever the lines' tax-exempt flags say, and never on labor
  or services (`TaxIgnoresLaborServicesAndExemptions`).
- **The two labor margins differ.** The breakdown rounds the unrounded price
  minus cost. The labor listing subtracts the two rounded amounts. They can
  differ by a hundredth (`LaborMarginDiffersFromListing`).
- **A markup override of 0 is ignored.** The line takes the quote's default
  markup, because the code tests the override for truthiness
  (`EffectiveMarkup`).
- **`PUT /quotes/{id}` writes any status string.** Only the status endpoint
  checks the five known statuses (`UpdateAcceptsAnyStatus`).
- **Not every write takes a snapshot.**
  - An update that sends no field still stores a snapshot, but keeps the
    version. Version tags can therefore repeat, and restoring a repeated tag
    finds the oldest row with it (`RepeatedTagRestoresOldest`).
  - Applying a template and changing the status take no snapshot and leave
    the version alone.
  - Both of those writes silently do nothing for an unknown quote id.

## Model

| member | source | states |
|---|---|---|
| Money.Round2 | backend/server.py:951-956 | `round(x, 2)` returns the count of hundredths nearest to x, within half a hundredth, and an exact tie goes to the even hundredth |
| Money.Round2HalfEven | backend/server.py:951-956 | ties go to the even hundredth: 0.125 → 0.12, 0.135 → 0.14, -0.125 → -0.12 |
| Money.Round2OfSum | backend/server.py:1029-1035 | re-rounding a sum or difference of already-rounded amounts changes nothing |
| Money.Round2Monotone | backend/server.py:1011-1015 | rounding never reverses the order of two amounts |
| Pricing.EffectiveMarkup | backend/server.py:941 | the override applies when present and non-zero; otherwise the quote default applies |
| Pricing.LineMarginIsMarkupOfCost | backend/server.py:941-945 | a line's unrounded price exceeds its unrounded cost by exactly markup percent of the cost |
| Pricing.ListEquipmentBySystem | backend/server.py:687-712 | a server error when the owning quote's markup is NULL; otherwise one priced row per fetched row, in order, each priced under that markup, or 20.0 when no quote is found |
| Pricing.ListedEquipmentNonNegative | backend/server.py:703-711 | with non-negative cost, quantity and markup, unit price, totals and margin are all non-negative |
| Pricing.ListLaborByRoom | backend/server.py:742-754 | one priced row per fetched labor row, in order |
| Pricing.ListedLaborIdentities | backend/server.py:748-752 | listed margin = price − cost exactly; margin percent = margin / cost × 100 when the rounded cost is positive, else 0 |
| Financials.PriceSystem | backend/server.py:926-965 | the system loop yields its priced lines, the rounded sums of the unrounded line costs and prices, and their margin |
| Financials.PriceSystems | backend/server.py:926-969 | the room's equipment cost and price are the totals of its systems' rounded amounts |
| Financials.PriceLabor | backend/server.py:975-991 | the labor loop yields the priced lines and the unrounded sums of rate × hours |
| Financials.PriceServices | backend/server.py:997-1008 | the service loop prices each service as a percentage of the room's equipment price before the quantity multiply |
| Financials.PriceRoom | backend/server.py:905-1017 | one room of the breakdown is exactly `RoomDataOf`: each amount scaled by the room quantity once and then rounded, with subtotal and margin from the rounded values |
| Financials.PriceRooms | backend/server.py:905-1026 | the room loop yields every room's breakdown in fetch order, and the five accumulators are the totals of the room amounts |
| Financials.GetQuoteFinancials | backend/server.py:874-1065 | NotFound for an unknown quote; a server error iff some line falls back to a NULL default markup or tax is charged at a NULL rate; otherwise the breakdown `FinancialsOf(q)` |
| Financials.UnreadDefaultMarkup | backend/server.py:940-941 | when no line falls back to the default markup, the breakdown is the same whatever the default, so a NULL default there is harmless |
| Financials.EquipmentLineMatchesListing | backend/server.py:940-956 | the breakdown prices an equipment line exactly as the equipment listing does: unit price, totals, margin and markup percent |
| Financials.LaborMarginDiffersFromListing | backend/server.py:975-987 | cost and price agree with the labor listing, but a line of 0.3 h at 0.01/0.02 has margin 0.00 in the breakdown and 0.01 in the listing |
| Financials.SystemIdentities | backend/server.py:963-965 | a system's margin is exactly its rounded price minus its rounded cost |
| Financials.RoomIdentities | backend/server.py:1011-1017 | room subtotal = the sum of the three scaled prices; room margin = subtotal − scaled equipment cost − scaled labor cost |
| Financials.ServicesPriceIsPercentOfEquipment | backend/server.py:997-1008 | the unrounded services total is the equipment price times the sum of the percentages over 100 |
| Financials.RoomEquipmentScalesWithQuantity | backend/server.py:1010-1012 | room equipment cost and price are exactly quantity × those of the same room at quantity 1; service lines are those of a single room |
| Financials.RoomServicesScaleForWholeHundredths | backend/server.py:1015 | if the unscaled services total is a whole number k of hundredths, the room's services price is k × quantity |
| Financials.RoomServicesNeedNotScale | backend/server.py:997-1015 | otherwise it need not: the same room has services 0.00 at quantity 1 and 0.01 at quantity 2 |
| Financials.TotalsAreRoomTotals | backend/server.py:1021-1037 | each re-rounded quote total equals the exact total of the rooms' rounded amounts |
| Financials.TotalsIdentities | backend/server.py:1029-1059 | margins = price − cost exactly; services cost 0; subtotal = the sum of the three prices; total margin = subtotal − costs; grand total = subtotal + tax |
| Financials.NoTaxWhenDisabled | backend/server.py:1046-1053 | with the tax flag false or NULL, tax is 0 whatever the rate, and the grand total is the subtotal |
| Financials.TaxOnEquipmentPrice | backend/server.py:1046-1051 | with tax enabled at a non-NULL rate, tax is that rate applied to the total of the rooms' equipment prices |
| Financials.MarginPercentGuarded | backend/server.py:1061-1063 | the margin percent is 0 unless equipment plus labor cost is positive, and otherwise total margin / cost × 100, rounded |
| Financials.TaxIgnoresLaborServicesAndExemptions | backend/server.py:1049-1051 | removing every labor and service line and clearing every tax-exempt flag leaves the tax unchanged |
| Financials.RoomEquipmentPriceIgnoresOtherLines | backend/server.py:960-969 | a room's equipment price depends only on its equipment sell prices |
| Financials.SampleQuoteTotals | backend/server.py:874-1065 | a worked quote: one room of quantity 2 holding a 100.00 item at 20 % markup, 10 % services and 8 % tax give equipment 240.00, services 24.00, subtotal 264.00, tax 19.20, grand total 283.20 |
| BillOfMaterials.VendorPart | backend/server.py:1334 | the key's vendor part is the vendor, or "N/A" when it is missing or empty |
| BillOfMaterials.SameItemSameKey | backend/server.py:1334 | lines with equal item name and vendor share a key |
| BillOfMaterials.KeysCanCollide | backend/server.py:1334 | a missing vendor and the vendor "N/A" share a key, and so do ("Cable\|Belden", "Cat6") and ("Cable", "Belden\|Cat6") |
| BillOfMaterials.AddSystemLines | backend/server.py:1332-1353 | the innermost loop adds the system's lines, in order, to the grouping dictionary |
| BillOfMaterials.AddRoom | backend/server.py:1320-1353 | the room loop body adds every system's lines, in order |
| BillOfMaterials.GenerateBom | backend/server.py:1296-1363 | NotFound for an unknown quote; otherwise the document `BomOf(quoteId, q)`, carrying the requested id and built from all occurrences in walk order |
| BillOfMaterials.GroupContents | backend/server.py:1332-1353 | a key has a group iff some line has it; the group carries the first such line's item name, description, vendor and unit cost, the sum of quantity × room quantity over all such lines, and their locations in walk order |
| BillOfMaterials.SummaryOrder | backend/server.py:1356 | the items are listed in first-insertion order of their keys, each key exactly once |
| BillOfMaterials.GroupingConservesTotals | backend/server.py:1332-1360 | the listed quantities add up to the units of all lines, and there is one location per line |
| BillOfMaterials.BomTotals | backend/server.py:1356-1360 | total_items is the number of distinct keys, and total_quantity is the units of every equipment line in every room |
| BillOfMaterials.FirstUnitCostWins | backend/server.py:1336-1346 | two 1-unit lines of one item at 10.00 and 12.00 form one group of 2 units at 10.00, so total_cost is 20.00 |
| Versioning.SnapshotRow | backend/app/initialization.py:328-340 | a history row carries the quote id, the quote's current version as tag, the full row and the user |
| Versioning.Updated | backend/server.py:597-610 | sent fields are written and unsent ones kept; the version is bumped only when some field was sent |
| Versioning.UpdateIdempotentButForVersion | backend/server.py:597-610 | sending the same fields twice gives the first result one version further on |
| Versioning.UpdateAcceptsAnyStatus | backend/server.py:89-101 | the update body writes any status string |
| Versioning.UpdateStoresExplicitNull | backend/server.py:89-101 | a tax rate sent as null is written as NULL, the version bumped and the tax flag kept |
| Versioning.FindVersion | backend/server.py:1246-1252 | the first history row with the quote id and tag, or None iff there is none |
| Versioning.Restored | backend/server.py:1262-1278 | name, client name and description come from the snapshot; markup, tax rate and tax flag come from the snapshot's keys, or 20.0, 0.0 and false each when its own key is absent (a key holding null gives NULL); status, department, company, contact and address are kept; the version is bumped |
| Versioning.RestoreRoundTrip | backend/server.py:1262-1278 | restoring a snapshot brings back its six restored fields, whatever happened to the row since |
| Versioning.RestoreUndoesUpdate | backend/server.py:1262-1278 | a restore of the snapshot taken before an edit of those six fields gives back the original row, with the version one past the edited row's |
| Versioning.RestoreDefaults | backend/server.py:1273-1276 | a snapshot without the defaulted keys restores markup 20.0, tax rate 0.0 and tax off; one holding null under them restores NULL |
| Versioning.RepeatedTagRestoresOldest | backend/server.py:1246-1252 | two snapshots under one tag: the restore finds the older one |
| Versioning.WithTemplateTax | backend/server.py:858-863 | a template writes only tax rate and tax flag (each the template's value, null included, or 0 and false when the key is absent) and leaves the version alone |
| Versioning.ValidStatusesAreFive | backend/server.py:1287 | the list has five entries, and a string is in it iff it is draft, pending, approved, rejected or revision |
| Versioning.VersionNeverDecreases | backend/server.py:604-610 | update raises the version by at most one, restore by exactly one, a template by none |
| Versioning.QuoteStore.RecordQuoteSnapshot | backend/app/initialization.py:328-340 | appends one history row for an existing quote, nothing otherwise; the quotes are untouched |
| Versioning.QuoteStore.UpdateQuote | backend/server.py:582-612 | NotFound with no write; or a snapshot under the old version followed by `Updated` |
| Versioning.QuoteStore.RestoreQuoteVersion | backend/server.py:1243-1280 | NotFound with no write when no row has the tag; otherwise a snapshot of the current row followed by `Restored`; never a server error while the store is valid |
| Versioning.QuoteStore.ApplyTemplate | backend/server.py:847-870 | NotFound for a missing template; otherwise only the tax settings are written, with no history row, and the stored lists are returned |
| Versioning.QuoteStore.UpdateQuoteStatus | backend/server.py:1284-1292 | BadRequest for an unknown status; otherwise only the status is written, with no history row |
| Config.SplitOn | backend/app/config.py:15 | `str.split(sep)` returns at least one piece |
| Config.SplitJoin | backend/app/config.py:15 | splitting undoes joining pieces that contain no separator |
| Config.JoinSplit | backend/app/config.py:15 | joining the pieces of a split gives back the string |
| Config.Strip | backend/app/config.py:15 | `str.strip()` leaves no leading or trailing whitespace, is empty iff the input is all whitespace, and adds no character |
| Config.StripTakesSlice | backend/app/config.py:15 | the stripped string is the slice of the input between a whitespace-only prefix and a whitespace-only suffix |
| Config.CleanPiecesSingle | backend/app/config.py:15 | one piece is kept, stripped, iff it is not blank |
| Config.CleanPiecesAppend | backend/app/config.py:15 | the kept pieces of a concatenation are those of each part, in left-to-right order |
| Config.SplitCsvOfPieces | backend/app/config.py:12-15 | any comma-free pieces joined with commas give back exactly the non-blank pieces, stripped, in order |
| Config.SplitCsvTwoOrigins | backend/app/config.py:12-15 | two clean origins written "a, b" give [a, b] |
| Config.SplitCsv | backend/app/config.py:12-15 | a missing or empty value gives []; every item is non-empty and already stripped |
| Config.SplitCsvNoComma | backend/app/config.py:15 | no item contains a comma |
| Config.SplitCsvOfJoin | backend/app/config.py:12-15 | clean comma-free items joined with commas split back into the same items |
| Config.SplitCsvExample | backend/app/config.py:12-15 | "a, b," gives ["a", "b"] |
| Config.GetEnv | backend/app/config.py:20-35 | `os.getenv` returns the value when the variable is set (even to ""), else the default |
| Config.Lower | backend/app/config.py:47 | lower-casing keeps the length and maps each character, A–Z to a–z |
| Config.LoadSettings | backend/app/config.py:18-60 | a missing or empty JWT_SECRET is an error; otherwise origins come from `_split_csv`, credentials need both a true flag and an origin, and bootstrap is on iff the password is set and non-empty |
| Config.NoCredentialsWithoutOrigins | backend/app/config.py:46-52 | without CORS_ORIGINS, credentials are off whatever the flag says |
| Config.CredentialFlagSpellings | backend/app/config.py:47 | "TRUE" and "True" read as true; "yes" and "1" do not |
| Config.SettingsCache.GetSettings | backend/app/config.py:63-70 | the first successful call builds and caches a fresh Settings; later calls return that same object; a failed build caches nothing |
| Seeding.SeededUsers | backend/app/initialization.py:309-320 | the admin row is appended only when bootstrap is on and the username is absent |
| Seeding.WithDepartmentsAdds | backend/app/initialization.py:322-325 | seeding keeps the old department rows in place, makes every name present, and adds nothing else |
| Seeding.WithDepartmentsPresent | backend/app/initialization.py:322-325 | a table that already holds every name is left unchanged |
| Seeding.BootstrapAdminSeeded | backend/app/initialization.py:309-318 | with bootstrap on, the admin username exists afterwards, and any added row has role "admin"; with bootstrap off, no user is added |
| Seeding.SeedingIdempotent | backend/app/initialization.py:309-325 | seeding twice is seeding once |
| Seeding.SeedEmptyDatabase | backend/app/initialization.py:322-325 | an empty table gets exactly AV, LV, IT, in that order |
| Seeding.Database.FindUser | backend/app/initialization.py:310-311 | the lookup finds the username iff some row has it |
| Seeding.Database.SeedDefaults | backend/app/initialization.py:309-325 | the users become `SeededUsers` of the old users, and the departments become the old ones plus each absent default, in order |

## Left out

- Binary floating point: `float` arithmetic is modelled as exact real arithmetic, and `round` as rounding of the exact value. Results that depend on binary representation error (for example 2.675 rounding to 2.67) are not captured.
- The integer settings (MYSQL_PORT, the pool sizes, JWT_EXPIRATION_HOURS) and the `int()` parsing that can raise on them.
- Config.Lower maps only A–Z; Python's `str.lower` also maps other letters (and a few to two characters). No such letter lowers to an ASCII letter of "true" except the upper-case ASCII ones, so the credentials flag reads the same.
- Config.Strip removes the whitespace characters up to code point 0xFF; other Unicode whitespace is not modelled.
- Loading the `.env` file into the environment is not modelled; the environment is a parameter.
- The `generated_at` timestamp of the bill of materials: it reads the clock.
- Password hashing (bcrypt) is a library call; the hash is a parameter of the seeding.
- Versioning.SnapshotOf keeps only the keys a restore reads (name, client name, description, markup, tax rate, tax flag), not the JSON dump of the whole row.
- Versioning.FindVersion takes the first matching row in insertion order. The SQL query has no ORDER BY, so the row MySQL returns for a repeated tag is unspecified.
- Versioning.Updated: a field sent as an explicit null on a NOT NULL column (name, client name, department) makes MySQL reject the UPDATE; the model only lets the nullable columns be set to null.
- Versioning.Updated: markup and tax rate are DECIMAL(5,2) columns, so MySQL rounds a written value to two decimals and rejects one outside ±999.99; the model stores the sent value as is (and so does Versioning.Restored and Versioning.WithTemplateTax).
- Seeding.Database.FindUser: the tables use MySQL's default collation (utf8mb4_0900_ai_ci), which compares usernames and department names ignoring case and accents; the model compares exactly, so "Admin" and "admin" are different users here but the same one to the database (and likewise for Seeding.WithDepartmentsAdds).
- The database's own failures, transactions, and concurrent requests (including two updates racing on the same version) are not modelled.
- Deleting a quote is not part of this model; the `Valid` invariant states what its cascade guarantees.
- Versioning.WithTemplateTax: a tax setting of another JSON type (a string, say) is handed to MySQL, which converts or rejects it; the model takes a number or flag, or null.
- The template's services and labor lists are returned as stored and not inserted, as in the code; parsing their JSON is not modelled.
- Authentication and authorisation of the endpoints (the user dependency) are not modelled; the user id is a parameter.
- The spreadsheet import and the Excel export of the bill of materials are not part of this model.
- Logging is not modelled.
