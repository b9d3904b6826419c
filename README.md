# shipments-kiz-mvp, modelled in Dafny

shipments-kiz-mvp is a warehouse scanning application. An operator picks a
shipment and a box. A barcode scanner, which acts as a keyboard, then feeds
product barcodes and, for marked goods, KIZ marking codes (DataMatrix) into a
form. Each scan is posted to a server route. That route fills missing
catalogue fields from tables imported from the Wildberries content API and
stores the row. Further routes list shipments, create shipments with a
human-readable number, and report where a marking code was last scanned.

This project models the logic of that pipeline and proves what it promises:

- `scanner.dfy` (module `Scanner`): the keyboard packetizer, as a class
  whose `buf` field is appended to on `keypress` and flushed on Enter. A
  reference semantics over event streams states that no character is lost or
  invented.
- `scan_form.dfy` (module `ScanForm`): the scanning page as a class whose
  fields are the page's state. It covers the `canAdd` gate, the ordered checks
  of `onAdd` and the fields it clears, the resets when the warehouse, date or
  shipment change, and the box list kept in ordinal order by `createBox`.
- `scan_route.dfy` (module `ScanRoute`): `POST /api/scan`. It covers the
  required-field check and the `sku → chrtid → (techsize, nmid) → vendorcode`
  fill-in over the three catalogue tables, modelled as maps. It also builds the
  `scan_kiz` arguments: a marking code only reaches the store in marking-code
  mode.
- `cards_import.dfy` (module `CardsImport`) and `json.dfy` (module `Json`):
  the catalogue import `POST /api/wb/cards/import`. It covers:
  - token normalisation and checks;
  - the page loop and its stop rule;
  - `deepSanitize` and `asBigint` over a JSON datatype;
  - flattening the cards into six row lists;
  - `chunkInsert`;
  - the response counts.
- `shipments.dfy` (module `Shipments`): the `warehouse-date-NNN` shipment
  label and the three shipment routes (list of a day, create, list all).
- `kiz_where.dfy` (module `KizWhere`): `GET /api/kiz/where`, which finds the
  latest journal row of a marking code, its shipment and its box.
- `text.dfy` (modules `Common` and `Text`): `Option`/`Result`, and the string
  primitives the source relies on: `trim`, ASCII case folding, `String(n)`
  for integers, and `padStart`.

The database and the marketplace API are parameters. A query or procedure
reply, an HTTP reply, or an insert outcome is a value or a function passed to
the operation that awaits it. A route returns its response together with the
queries or calls it issued, so contracts can state that, for example, no
lookup happens after a failed check.

## Model

| member | source | states |
|---|---|---|
| Scanner.KeyText | components/ScannerCapture.tsx:39-40 | a key contributes text exactly when its JavaScript length (in UTF-16 code units) is 1, and then contributes that one character from the Basic Multilingual Plane; "Shift", "Enter" and a character beyond U+FFFF such as an emoji contribute nothing |
| Text.Utf16Length | components/ScannerCapture.tsx:39 | `e.key.length` counts UTF-16 code units: at least one and at most two per character, and exactly one per character when every character is in the Basic Multilingual Plane |
| Text.OneCodeUnit | components/ScannerCapture.tsx:39 | a string has JavaScript length 1 exactly when it is one character below U+10000 |
| Scanner.AstralKeyTypesNothing | components/ScannerCapture.tsx:39 | a key beyond U+FFFF, such as an emoji, has length 2 in JavaScript and types nothing |
| Scanner.TypedSnoc | components/ScannerCapture.tsx:40 | a new key's text goes at the end of what was typed before; nothing earlier changes |
| Scanner.StepConservesText | components/ScannerCapture.tsx:20-43 | one event neither loses nor invents a character: the packet it emits, followed by the new buffer, is the old buffer followed by the event's text |
| Scanner.RunConservesText | components/ScannerCapture.tsx:20-43 | over any event stream, the emitted packets joined in order, followed by what is still buffered, equal the starting buffer followed by every key of JavaScript length 1 pressed, in order |
| Scanner.RunPacketsNonEmpty | components/ScannerCapture.tsx:20-27 | every packet emitted over any event stream is non-empty |
| Scanner.ScannerCapture.constructor | components/ScannerCapture.tsx:16-17 | the buffer starts empty |
| Scanner.ScannerCapture.Flush | components/ScannerCapture.tsx:20-27 | an empty buffer emits nothing and changes nothing; a non-empty one is emitted whole as the packet, progress becomes "", and the buffer is emptied |
| Scanner.ScannerCapture.OnKeyDown | components/ScannerCapture.tsx:29-35 | only Enter acts; an emitted packet is non-empty and is exactly the keys received since the last flush; the default action is suppressed only for Enter and only when typing is blocked |
| Scanner.ScannerCapture.OnKeyPress | components/ScannerCapture.tsx:37-43 | a key of JavaScript length 1 (one UTF-16 code unit) is appended at the end of the buffer, progress reports the new buffer, and the default action is suppressed when typing is blocked; any other key changes nothing |
| ScanForm.CanAdd | app/page.tsx:50-55 | true exactly when a shipment and a box are selected, the barcode is not blank, and in marking-code mode the marking code is not blank |
| ScanForm.AddCheck | app/page.tsx:137-142 | the checks run in the order selection, barcode, marking code, and the first failure's message is reported; none fails exactly when `canAdd` holds |
| ScanForm.PageRequestPassesRouteCheck | app/page.tsx:144-155 | whatever the page posts once `canAdd` holds passes the scan route's required-field check; in marking-code mode the marking code is sent as typed |
| ScanForm.InsertByOrdinal | app/page.tsx:115 | inserting a box adds exactly that box: one longer, same multiset plus the box |
| ScanForm.InsertKeepsSorted | app/page.tsx:115 | inserting into a list ordered by ordinal keeps it ordered |
| ScanForm.SortByOrdinal | app/page.tsx:115 | the sort by `a.ordinal - b.ordinal` gives a permutation of its input in ascending ordinal order |
| ScanForm.SortSortedIsIdentity | app/page.tsx:115 | sorting an already ordered list returns it unchanged |
| ScanForm.AddBoxInsertsInPlace | app/page.tsx:115 | with the list in order, appending the new box and sorting equals inserting it after every box of lower or equal ordinal |
| ScanForm.BoxesAfterCreate | app/page.tsx:115-116 | the new list is ordered, is the old list plus the new box as a multiset, lists the new box, and still lists every box listed before |
| ScanForm.ScanSession.constructor | app/page.tsx:25-47 | a fresh page: warehouse Kazan, today's date, nothing selected, typed or listed |
| ScanForm.ScanSession.LoadShipments | app/page.tsx:58-71 | pickers and tables are cleared first; the shipments shown are the server's list, or none after an error; the form fields are kept |
| ScanForm.ScanSession.ClearSelection | app/page.tsx:76-81 | the box list, the box selection, the listing and the summary become empty; the shipment, the shipment list and the form fields are kept |
| ScanForm.ScanSession.ChangeWarehouse | app/page.tsx:73 | a warehouse change reloads the shipments and clears the shipment, the box selection, the boxes, the listing and the summary |
| ScanForm.ScanSession.ChangeDate | app/page.tsx:73 | a date change reloads the shipments and clears the shipment, the box selection, the boxes, the listing and the summary |
| ScanForm.ScanSession.SelectShipment | app/page.tsx:76-81 | selecting another shipment clears the box selection, the boxes, the listing and the summary; reselecting the same one changes nothing |
| ScanForm.ScanSession.SelectBox | app/page.tsx:232-237 | the selected box becomes one of the listed boxes, or none; nothing else changes |
| ScanForm.ScanSession.CreateShipment | app/page.tsx:88-101 | an error shows its message, or the fallback message, and changes no selection; success reloads the list, selects the new shipment and announces its human number |
| ScanForm.ScanSession.CreateBox | app/page.tsx:103-118 | with no shipment nothing is requested and an error is shown; a refused creation shows its message or the fallback; success puts the new box into the ordered list and selects it |
| ScanForm.ScanSession.AddBox | app/page.tsx:114-117 | the box list becomes the ordered list with the new box, and the new box is selected |
| ScanForm.ScanSession.RefreshDataViews | app/page.tsx:121-132 | nothing changes without a shipment; the listing is replaced only by a successful reply, and the summary only when a box is selected and its reply succeeds |
| ScanForm.ScanSession.OnAdd | app/page.tsx:136-171 | a request is sent exactly when `canAdd` held, with the form's values; a local or server failure shows a message and keeps every form field; success empties exactly the barcode and the marking code |
| ScanForm.ScanSession.TakeScanReply | app/page.tsx:159-167 | a refused scan shows the endpoint's message, or the fallback, and keeps the barcode and marking code; an accepted scan empties exactly those two fields and shows nothing |
| ScanForm.ScanSession.KeyDownInField | app/page.tsx:248 | Enter in the barcode or marking-code field sends the scan exactly when `canAdd` holds, with the form's values; a refused scan keeps the barcode and marking code and shows the endpoint's message or the fallback, and an accepted one empties exactly those two fields; any other key, or Enter without `canAdd`, changes nothing; the selection, the shipment list, the tables, the warehouse and the date are never changed |
| ScanRoute.Autofill | app/api/scan/route.ts:32-63 | nothing is looked up when all three fields are truthy; a supplied non-null value is never replaced; with no sku row, no chrtid or no size row all three stay as supplied; the first query is the sku, and a card is fetched only for a falsy supplier code; the result is the declarative fill-in |
| ScanRoute.FilledWbCodeNamesCard | app/api/scan/route.ts:50 | a filled-in `wb_code` was null before, and is the decimal numeral of the card number of the size row the barcode leads to; it reads back as that number |
| ScanRoute.RpcArgs | app/api/scan/route.ts:66-75 | the marking code argument is the body's code in marking-code mode and null otherwise; shipment, box, barcode and mode are passed through |
| ScanRoute.Post | app/api/scan/route.ts:21-82 | a falsy shipment or barcode gives 400 with no lookup and no store call; otherwise exactly one `scan_kiz` call with the filled-in fields; a store error gives 400 with its message, success the store's id |
| Shipments.ShipmentLabelParts | app/api/shipments/route.ts:27 | a label is `warehouse-date-` followed by at least three digits that read back as the counter; dropping the leading zeros gives `String(n)` |
| Shipments.ShipmentLabelInjective | app/api/shipments/route.ts:27 | two counters of the same warehouse and day never share a label |
| Shipments.DayOptions | app/api/shipments/route.ts:22-28 | one option per row, in row order, with id, counter, status and delivery date copied and the label built from the request's warehouse and date |
| Shipments.ListShipments | app/api/shipments/route.ts:4-31 | a missing or empty warehouse or date gives 400 with no query; otherwise the day's query ordered by counter; a query error gives 400 with its message |
| Shipments.DayLabelsDistinct | app/api/shipments/route.ts:22-28 | distinct counters in a day's rows give distinct picker labels |
| Shipments.CreateShipment | app/api/shipments/create/route.ts:10-30 | a validation or procedure error gives 400 with its message, or "create_shipment failed" when it has none; the first row's id and counter are returned unchanged; `human_number` is built from the request's warehouse and date, with a null counter counted as 1 |
| Shipments.MissingCounterIsOne | app/api/shipments/create/route.ts:20 | a null counter prints as "001" |
| Shipments.AllShipments | app/api/shipments/all/route.ts:4-25 | the query sorts by date descending, then counter descending, limited to 500 rows; one entry per row in order, the six fields copied and the label built; a query error gives 400 |
| Shipments.AllShipmentsKeepsOrder | app/api/shipments/all/route.ts:5-22 | when the rows honour the query, the entries are at most 500 and newest first, and entries of one warehouse and day with different counters have different labels |
| KizWhere.Latest | app/api/kiz/where/route.ts:10-15 | the row found is a row of the code with the latest `created_at`; none exactly when the journal has no row for the code |
| KizWhere.BoxLabel | app/api/kiz/where/route.ts:36-48 | "Короб N" when the row names a box and the box is found; "без короба" otherwise, and a failed box lookup is not an error |
| KizWhere.Where | app/api/kiz/where/route.ts:4-61 | a missing code gives 400 with no lookup; a journal error gives 400; no row gives 404 `not_found`; a failed or empty shipment lookup gives 400 with the lookup's message, or `shipment not found` when it has none, after reading only the journal and the shipments; otherwise the code, the shipment, its padded label, the box and its label, and the latest scan's time |
| KizWhere.LatestIgnoresOtherCodes | app/api/kiz/where/route.ts:13 | journal rows of other codes never change the location reported for a code |
| KizWhere.NewerScanWins | app/api/kiz/where/route.ts:14-15 | a scan newer than every earlier scan of the code becomes the reported one |
| Text.TrimEmptyIffBlank | app/page.tsx:52-53 | `!s.trim()` holds exactly when the string is white space only |
| Text.TrimIdempotent | app/api/wb/cards/import/route.ts:138 | trimming twice is trimming once |
| Text.TrimEdges | app/api/wb/cards/import/route.ts:138 | a trimmed string is empty or starts and ends with a non-space character |
| Text.IntStringRoundTrip | app/api/scan/route.ts:50 | `String(i)` reads back as `i` for every integer |
| Text.PadStart | app/api/shipments/route.ts:27 | the result is at least the width long, ends with the input, and is filled in front with the fill character |
| Text.PaddedNumberRecovers | app/api/shipments/create/route.ts:20 | a counter padded to three characters is all digits, three long below 1000, reads back as the counter, and loses only its padding when leading zeros are dropped |
| Json.OrNull | app/api/wb/cards/import/route.ts:182 | `v ?? null` keeps every non-nullish value and never yields `undefined` |
| Json.Get | app/api/wb/cards/import/route.ts:176 | reading a property throws exactly on `null` or `undefined`, with the V8 message; otherwise it yields the property |
| Json.OptProp | app/api/wb/cards/import/route.ts:193-195 | `v?.k` is `undefined` on nullish values and the property otherwise |
| Json.DeepSanitize | app/api/wb/cards/import/route.ts:57-73 | the result is null exactly for null, undefined, blank or "null"/"undefined" strings in any case, and non-finite numbers; other strings (untrimmed), booleans and finite numbers are kept; arrays keep their length and objects their keys |
| Json.SanitizedIsClean | app/api/wb/cards/import/route.ts:57-73 | no `undefined`, non-finite number or null-text string is left anywhere in a sanitized value |
| Json.CleanIsUnchanged | app/api/wb/cards/import/route.ts:57-73 | a clean value is returned unchanged |
| Json.SanitizeIdempotent | app/api/wb/cards/import/route.ts:57-73 | sanitizing twice is sanitizing once |
| Json.Trunc | app/api/wb/cards/import/route.ts:40 | `Math.trunc` rounds toward zero: the result times the scale brackets the value from the side of zero |
| Json.AsBigint | app/api/wb/cards/import/route.ts:38-48 | null for nullish values, booleans, arrays, objects, non-finite numbers and blank or null-word strings; a finite number truncated toward zero; a trimmed integer numeral read |
| Json.NullWordIsNotNumeral | app/api/wb/cards/import/route.ts:43 | "null" and "undefined" in any case are not integer numerals |
| Json.AsBigintReadsIntegers | app/api/wb/cards/import/route.ts:38-48 | every integer of at most 2^53 - 1 in size (`Number.MAX_SAFE_INTEGER`) reads back, written as a JSON number or as its decimal string |
| Json.AsBigintAfterSanitize | app/api/wb/cards/import/route.ts:174-176 | sanitizing first never changes what `asBigint` yields |
| Json.IntStringTrimmed | app/api/wb/cards/import/route.ts:42 | an integer numeral has no white space at either end, so `trim` keeps it |
| Json.TruncWhole | app/api/wb/cards/import/route.ts:40 | `Math.trunc` of a whole number is that number |
| Json.IntegralDecimalString | app/api/wb/cards/import/route.ts:229 | an integral number prints as its integer numeral however many fraction digits it was written with |
| CardsImport.StripAuthorization | app/api/wb/cards/import/route.ts:138 | the result is an end piece of the input, and stays trimmed when the input was |
| CardsImport.StripBearer | app/api/wb/cards/import/route.ts:138 | the result is an end piece of the input, and stays trimmed when the input was |
| CardsImport.NormalizeToken | app/api/wb/cards/import/route.ts:137-138 | the token is an end piece of the trimmed input and has no white space at either end |
| CardsImport.BareTokenKept | app/api/wb/cards/import/route.ts:138 | a trimmed token without either prefix is kept as it is |
| CardsImport.BearerTokenKept | app/api/wb/cards/import/route.ts:138 | `Bearer <token>` gives the token |
| CardsImport.AuthorizationTokenKept | app/api/wb/cards/import/route.ts:138 | `Authorization: Bearer <token>` gives the token |
| CardsImport.RequestFor | app/api/wb/cards/import/route.ts:83-86 | the cursor is sent exactly when `updatedAt` is a non-empty string and `nmID` is set, and then both are sent |
| CardsImport.HttpErrorText | app/api/wb/cards/import/route.ts:102-105 | without a JSON body the message is the body text, or `WB API HTTP <status>` when the text is empty |
| CardsImport.ReadPage | app/api/wb/cards/import/route.ts:99-114 | an error status throws the error text; a successful reply is read exactly when its body is a JSON object or array, otherwise the bad-JSON message; the cards are the body's `cards` array or none |
| CardsImport.FetchPage | app/api/wb/cards/import/route.ts:75-115 | fetching a page is reading the marketplace's reply to the request for that cursor |
| CardsImport.Crawl | app/api/wb/cards/import/route.ts:149-161 | a successful loop reads between 1 and 5001 pages |
| CardsImport.Requests | app/api/wb/cards/import/route.ts:153-161 | the loop sends between 1 and 5001 requests, the first one for the first page |
| CardsImport.RequestsChain | app/api/wb/cards/import/route.ts:153-161 | each request after the first carries the cursor of the page before it, and that page was read and reported a total of at least 100 |
| CardsImport.RequestsFailure | app/api/wb/cards/import/route.ts:153-161 | when the loop fails, the last request sent is the one whose page failed, with the same message |
| CardsImport.RequestsSuccess | app/api/wb/cards/import/route.ts:153-161 | when the loop succeeds, every page asked for was read, the page count is the request count, and the last page reported a total below 100 or was page 5001 |
| CardsImport.RequestsCards | app/api/wb/cards/import/route.ts:153-161 | when the loop succeeds, the cards gathered are those of all pages asked for, in request order |
| CardsImport.FetchAll | app/api/wb/cards/import/route.ts:149-161 | the `while (true)` loop yields exactly the outcome and the requests of the reference loop |
| CardsImport.ListOf | app/api/wb/cards/import/route.ts:205 | a missing list is empty, an array gives its items, and anything else throws |
| CardsImport.MapRows | app/api/wb/cards/import/route.ts:205-222 | one row per element in order, unless some element is null, which throws the property-read error |
| CardsImport.SkuRowsOf | app/api/wb/cards/import/route.ts:228-231 | one sku row per sku, in order, carrying the size's `chrtid` and the sku as a string |
| CardsImport.SizeEntries | app/api/wb/cards/import/route.ts:224-232 | a null size throws; a size whose `chrtID` is not an integer adds nothing; otherwise one size row and its sku rows |
| CardsImport.SizesOf | app/api/wb/cards/import/route.ts:224-232 | every size row carries the card's number, there are no more size rows than sizes, and every sku row belongs to a size row |
| CardsImport.CardContribution | app/api/wb/cards/import/route.ts:173-232 | a card that sanitizes to null throws; a card without a usable `nmID` adds nothing; any other card adds exactly one card row, and every photo, tag, characteristic and size row it adds carries its number |
| CardsImport.CardRows | app/api/wb/cards/import/route.ts:178-232 | a kept card adds exactly its card row, and every photo, tag, characteristic and size row it adds carries its number, every sku row belonging to one of its size rows |
| CardsImport.PhotoRows | app/api/wb/cards/import/route.ts:205-212 | every photo row carries the card's number |
| CardsImport.TagRows | app/api/wb/cards/import/route.ts:214-217 | every tag row carries the card's number |
| CardsImport.CharacteristicRows | app/api/wb/cards/import/route.ts:219-222 | every characteristic row carries the card's number |
| CardsImport.SizeRows | app/api/wb/cards/import/route.ts:224-232 | every size row carries the card's number and every sku row belongs to one of the size rows |
| CardsImport.Flatten | app/api/wb/cards/import/route.ts:166-233 | the loop pushing onto six lists yields the rows of all cards in order, or the first card's error |
| CardsImport.CardRowsFollowKeptCards | app/api/wb/cards/import/route.ts:176-179 | there is exactly one card row per kept card, in card order |
| CardsImport.NmidOfRawField | app/api/wb/cards/import/route.ts:174-177 | the number a card is kept under is `asBigint` of its raw `nmID`, sanitized or not |
| CardsImport.SanitizedFieldReadsSame | app/api/wb/cards/import/route.ts:66-69 | sanitizing an object keeps, for every key, what `asBigint` reads from that key's field |
| CardsImport.Chunks | app/api/wb/cards/import/route.ts:117-120 | every chunk holds between 1 and `size` rows |
| CardsImport.ChunksConcat | app/api/wb/cards/import/route.ts:117-120 | the chunks joined in order are the rows |
| CardsImport.ChunksCount | app/api/wb/cards/import/route.ts:118-119 | there are ceil(rows / size) chunks, and all but the last are full |
| CardsImport.FirstFailure | app/api/wb/cards/import/route.ts:121-125 | no refusal exactly when the store accepts every chunk |
| CardsImport.Attempted | app/api/wb/cards/import/route.ts:117-126 | the chunks sent are a prefix of all chunks: all of them when none is refused, else up to and including the first refused one, after chunks that were all stored |
| CardsImport.ChunkInsert | app/api/wb/cards/import/route.ts:117-127 | the `for` loop sends exactly the chunks of the reference and reports the first refusal |
| CardsImport.ClearTables | app/api/wb/cards/import/route.ts:236-241 | the six deletions run in the route's order, and the first one refused ends the sequence with its message; none refused gives no error |
| CardsImport.InsertTables | app/api/wb/cards/import/route.ts:243-248 | the six tables are filled in the route's order, and the first refused chunk ends the sequence with the insert-failed message naming its table |
| CardsImport.Thrown | app/api/wb/cards/import/route.ts:281 | the reported error message is never empty |
| CardsImport.Import | app/api/wb/cards/import/route.ts:135-284 | an empty token gives 500 and a non-ASCII one 400; then the first failure among the page loop, the flattening, the six deletions and the six inserts, in the route's order, gives 500 with its message; success reports between 1 and 5001 pages and the six row counts, and `total_cards` is the number of kept cards |

## Left out

- Database and HTTP I/O: every Supabase query, RPC, delete and insert, and the marketplace fetch, is a parameter (a value or a function of the request). Concurrency between requests is not modelled.
- `JSON.parse` in `safeParseJSON` and the zod body schema are library calls: the parsed body, or the validator's outcome and message, are inputs.
- CardsImport.CardContribution: `createdat`, `updatedat` (`asISODate`, `Date` parsing) and `weightbrutto` (floating-point `Number`) are not columns of the modelled card row.
- Json.AsBigint: numbers are exact decimals. The IEEE-754 double rounding of `JSON.parse` and `Number()` is not modelled. So integers beyond 2^53 and numerals with 17 or more significant digits read exactly here: `9007199254740993` stays itself, where JavaScript reads 9007199254740992, and `0.99999999999999999` truncates to 0, where JavaScript gives 1. Json.AsBigintReadsIntegers is stated only for safe integers for this reason.
- Json.AsBigint: `Number(s)` is modelled only for optionally signed decimal-integer strings; other forms (fractions, exponents, hex, `Infinity`) yield null here.
- Json.DeepSanitize: the special `__proto__` key and getters are not modelled; an object is its list of own enumerable fields.
- Json.JsString: numbers print in plain decimal form; JavaScript's exponent form for very large or very small numbers is not modelled.
- CardsImport.InsertFailedMessage: the `JSON.stringify` of the first three rows of the refused chunk is not appended to the message.
- CardsImport.Import: the `wb_sync_meta` upsert only logs a warning, so it is not modelled. The 60-second `AbortController` timeout is not modelled either. Each page's reply depends only on its cursor: the request headers are fixed.
- CardsImport.ClearOutcome: `deleteAllNumeric`'s rule that error PGRST116 counts as success is folded into the store's `clear` answer.
- CardsImport.Flatten: the `push(...cards)` spread of very large arrays (a stack-size `RangeError` in V8) is not modelled.
- The V8 wording of a `TypeError` is modelled for property reads and a missing `forEach`; other engine messages are not.
- ScanRoute.Post: the `catch` branch (500 with `e?.message` or "scan failed") covers a body that is not JSON and a thrown client. Both are outside the model, whose body is already parsed.
- ScanForm.ScanSession.OnAdd: the refresh of the listing after a successful scan is the separate `RefreshDataViews` call. Audio, focus and the `refreshDataViews` effect timing are not modelled.
- ScanForm.ScanSession: `onDeleteRow`, `saveDeliveryDateInfo` and the delivery-date field are not modelled. The first two only call a route and show a toast; the field is informational and never saved.
- Scanner.ScannerCapture: registering and removing the document listeners, and the React effect lifecycle, are not modelled.
- Shipments.ListShipments and Shipments.AllShipments: a `null` data reply (`data ?? []`) is the empty row list.
- The boxes routes, the row deletion route, the layout and the presentational components are outside this model.
