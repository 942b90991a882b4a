# Order classification, route ordering and status updates of the siinops dashboard

This project models the data engine of a delivery dashboard. The dashboard takes a flat
JSON list of orders and shows three sections of cards:

- sellers in Bahrain to pick up from;
- local customers to deliver to;
- remote ("Siin") customers to deliver to.

It also shows three status counters, a map view with a pickup route, and "mark all as
picked up / delivered" buttons. The engine is copied, with small differences, into
several files. The model keeps each copy's differences as parameters:

- the property that identifies an order line (`DbID` in the service copy, `OrderID` in
  the legacy one);
- the normalisation pass that runs first (the service's, the map view's, or none).

The modules follow the program's structure:

| module | file | what it models |
|---|---|---|
| `JsText` | jstext.dfy | the JavaScript string operations the engine uses: `trim` (the full ECMAScript set of white space and line terminators), ASCII `toLowerCase`/`toUpperCase`, optional chaining of an absent property, truthiness, and the property key an absent value becomes (`"undefined"`) |
| `Orders` | orders.dfy | the order record, the trimmed and lower-cased status, `Paid === true`, and the two in-place normalisation passes |
| `Grouping` | grouping.dfy | JavaScript objects used as dictionaries (keys kept in insertion order), `Set`s, first-seen grouping, upserts, `findIndex`, `filter` and `map`, with the closed forms the loops are proved against |
| `CountryFlags` | flags.dfy | `getCountryFlag` |
| `Classifier` | classifier.dfy | `processOrderData`'s loops, written as methods over the order array and the dictionaries and proved equal to the closed form `Classify` |
| `ClassifierFacts` | classifier_facts.dfy | what `Classify`'s output means, stated against the input orders |
| `Sorting` | sorting.dfy | the stable in-place sort of an array by a two-part key, and why any stable sort by the same comparator gives the same array |
| `Route` | route.dfy | `hasOwnItems`, the route comparator and the route list |
| `Renderer` | renderer.dfy | the annotation and sorting done by the section renderers, and the displayed item text |
| `StatusUpdate` | status.dfy | the in-place `ShippingStatus` update of the mark-all buttons, then re-classification |
| `Dates` | dates.dfy | `parseCustomDate`, down to `split`, `Number` and the `Date` constructor's time value, and the `getDateRange` scan |
| `MapView` | mapview.dfy | `processPickupData` and `processDeliveryData` of the map page |

Each imperative loop of the source is a `method` with a `while` loop, modifying the same
things the source modifies:

- the order array (normalisation, status update, in-place sort);
- the dictionaries and sets of the classifier and the map view.

Each method's `ensures` ties its result to a specification function. The lemmas then
prove the listed properties about those functions.

Floating-point distance and `parseFloat` of coordinates are parameters (`Route.Geo`). A
distance is an arbitrary real, so no property depends on the Haversine formula.

The model follows the code in these points, where a reader might expect otherwise:

- The cards depend on input order. A dictionary's keys are in first-seen order, and a
  card's header fields come from its first qualifying order. The same orders in another
  order can give different cards.
- A mark-all call updates only the first record with each `DbID`, not every record with
  that id.
- `hasOwnItems` compares the raw, untrimmed `Customer` with the trimmed seller name.
- The map view lower-cases `ShippingStatus` in the shared array itself. The service copy's
  status assignments store back the value they tested, so they change nothing.
- A `CreatedAt` without `", "` makes `parseCustomDate` throw, and `getDateRange` throws
  with it. It does not skip the record. When the first record's date is invalid, both ends
  stay invalid.
- A malformed `Total` does not default to 0: `parseFloat` gives NaN. The model takes the
  parsed total as a given number (see "Left out").

## Model

| member | source | states |
|---|---|---|
| JsText.TrimStart | js/orderProcessingService.js:44 | the result of removing leading white space is a suffix of the input; everything removed is white space; the result does not start with white space |
| JsText.TrimEnd | js/orderProcessingService.js:44 | the result of removing trailing white space is a prefix of the input; everything removed is white space; the result does not end with white space |
| JsText.Trim | js/orderProcessingService.js:52-56 | `String.prototype.trim`: removes the white space at both ends; what it keeps and removes is stated by `TrimShape`, `TrimEnds`, `TrimIdempotent` and `TrimNothing` |
| JsText.TrimShape | js/orderProcessingService.js:52-56 | `trim` returns one contiguous slice of its input, with only white space on either side of it |
| JsText.TrimEnds | js/orderProcessingService.js:52-56 | a trimmed string is empty or begins and ends with a character that is not white space |
| JsText.TrimIdempotent | js/orderProcessingService.js:54 | trimming a trimmed string changes nothing |
| JsText.TrimNothing | js/orderProcessingService.js:54 | a string that neither starts nor ends with white space is its own trim |
| JsText.TrimLower | js/orderProcessingService.js:54 | trimming and lower-casing commute, so `trim().toLowerCase()` of a string lower-cased earlier is the same as of the original |
| JsText.Lower | js/orderProcessingService.js:54 | ASCII `toLowerCase`: keeps the length, lower-cases each letter and leaves every other character (`LowerAt`, `LowerIdempotent`) |
| JsText.Upper | js/geoUtils.js:75 | ASCII `toUpperCase`: keeps the length, upper-cases each letter and leaves every other character (`UpperAt`, `UpperIdempotent`) |
| JsText.LowerAt | js/orderProcessingService.js:54 | `toLowerCase` maps each character on its own and keeps the length |
| JsText.UpperAt | js/geoUtils.js:75 | `toUpperCase` maps each character on its own and keeps the length |
| JsText.LowerIdempotent | map/map.js:143 | lower-casing twice is lower-casing once |
| JsText.UpperIdempotent | js/geoUtils.js:75 | upper-casing twice is upper-casing once |
| JsText.Normalized | js/orderProcessingService.js:54 | `?.trim().toLowerCase()` is absent exactly when the property is absent |
| JsText.NormalizedIdempotent | js/orderProcessingService.js:54 | normalising a normalised status changes nothing |
| JsText.TrimField | js/orderProcessingService.js:44 | `x?.trim()` on an optional string; `TrimFieldIdempotent` states that it keeps absence and that a second trim changes nothing |
| JsText.TrimFieldIdempotent | js/orderProcessingService.js:52-56 | trimming keeps an absent value absent and a present one present; trimming twice is trimming once |
| JsText.Truthy | js/orderProcessingService.js:45 | truthiness of an optional string; `TruthyTrimmed` states which trimmed values are truthy |
| JsText.TruthyTrimmed | js/orderProcessingService.js:77 | a guard such as `!seller` on a trimmed value rejects exactly the absent values and those made only of white space |
| JsText.TrimEmpty | js/orderProcessingService.js:44-45 | trimming leaves the empty string exactly when every character is white space |
| JsText.PropertyKey | js/orderProcessingService.js:177-187 | the key `obj[x]` stores under: a string is itself and `undefined` is "undefined" (`PropertyKeyCollisions`) |
| JsText.PropertyKeyCollisions | js/orderProcessingService.js:179-185 | two values share a key exactly when they are equal, or one is absent and the other is the text "undefined", so an order without a customer and one with a customer named "undefined" share a bucket |
| Orders.StatusesDiffer | js/orderProcessingService.js:60-62 | "pending", "picked up" and "delivered" are three different values, so the status chain adds each order to at most one counter |
| Orders.Status | js/orderProcessingService.js:54 | the status as the engine compares it, trimmed and lower-cased; `NormalizeKeepsStatus` states that normalisation leaves it unchanged, and `StatusUpdate.WrittenStatuses` that the statuses the buttons write read back as "picked up" and "delivered" |
| Orders.IsPaid | js/orderProcessingService.js:123 | `Paid === true`; `PaidAfterNormalisation` states which raw values count as paid after normalisation, and `ClassifierFacts.DeliveryFoldUnpaid` that exactly the lines not paid add to `unpaidTotal` |
| Orders.Normalize | js/orderProcessingService.js:8-23 | one record's normalisation under either pass (the map view's is map/map.js:140-150): stated by `ServicePaidMapping`, `ServiceStatusIsIdentity`, `PaidAfterNormalisation`, `NormalizeKeepsStatus`, `NormalizeIdempotent` and `NormalizeTouchesOnlyPaidAndStatus` |
| Orders.ServicePaid | js/orderProcessingService.js:9-13 | the service's `Paid` mapping, stated by `ServicePaidMapping` |
| Orders.MapPaid | map/map.js:147-149 | the map view's `Paid` mapping: only "paid" becomes true, stated by `PaidAfterNormalisation` |
| Orders.MapStatus | map/map.js:142-144 | the map view lower-cases a present status in place, which `NormalizeKeepsStatus` shows changes no comparison |
| Orders.NormalizeAll | js/orderProcessingService.js:8-23 | the normalisation loop replaces every record of the array, in place, by its normalised form (the service's rules or the map view's, map/map.js:140-150) |
| Orders.ServicePaidMapping | js/orderProcessingService.js:9-13 | "paid" becomes true, "unpaid" becomes false, every other `Paid` value is left unchanged |
| Orders.ServiceStatusIsIdentity | js/orderProcessingService.js:16-22 | the service's status assignments store the value they tested, so its pass changes only `Paid` |
| Orders.PaidAfterNormalisation | map/map.js:147-149 | after either pass an order counts as paid exactly when `Paid` was true or "paid"; "unpaid" stays unpaid, and the map view leaves "unpaid" as it is |
| Orders.NormalizeKeepsStatus | map/map.js:142-144 | lower-casing the stored status in place does not change how the status compares (trimmed and lower-cased) |
| Orders.NormalizeIdempotent | map/map.js:140-150 | running a normalisation pass a second time changes nothing |
| Orders.NormalizeTouchesOnlyPaidAndStatus | js/orderProcessingService.js:8-23 | both passes change no property other than `Paid` and `ShippingStatus` |
| CountryFlags.CountryFlag | js/geoUtils.js:72-76 | the globe for a missing or empty code; otherwise the table's glyph for the upper-cased code, and the globe when the table has no entry |
| CountryFlags.TableHasNoGlobe | js/geoUtils.js:30-70 | every glyph of the table is a region flag |
| CountryFlags.FlagShownIffKnown | js/geoUtils.js:72-76 | a code shows a region flag exactly when it is non-empty and its upper-cased form is in the table, which makes the lookup total |
| CountryFlags.CaseInsensitive | js/geoUtils.js:75 | a code and its upper-cased form show the same glyph |
| CountryFlags.GreatBritainAlias | js/geoUtils.js:34-35 | "GB" and "UK" show the same glyph, in any case |
| CountryFlags.LowerCaseCodes | script.js:721-725 | "bh" and "Us" find their flags, and "zz", "" and a missing code show the globe |
| CountryFlags.KnownCode | js/geoUtils.js:30-70 | a table code written in capitals shows its own entry |
| Grouping.Table.Values | js/orderProcessingService.js:232-234 | `Object.values` lists the values in key order, one per key |
| Grouping.FirstSeen | js/orderProcessingService.js:83-95 | a dictionary's keys are listed without repetition, each one that some element has, and no other |
| Grouping.SelectMembers | js/orderProcessingService.js:98-111 | a group holds exactly the elements with its key |
| Grouping.SelectNonEmpty | js/orderProcessingService.js:83-95 | a group is non-empty exactly when its key is one of the dictionary's keys |
| Grouping.SelectHead | js/orderProcessingService.js:83-95 | a group's first element is the first element of the input with that key |
| Grouping.GroupsPartition | js/orderProcessingService.js:177-186 | taken together, the groups hold every element exactly once |
| Grouping.UpsertInTwoSteps | js/orderProcessingService.js:83-111 | an upsert creates the entry from the element when the key is new, then adds the element to the entry |
| Grouping.GroupedShape | js/orderProcessingService.js:83-111 | after the upsert loop, the keys are in first-seen order, and each entry is its group folded from the entry created by the group's first element |
| Grouping.GroupAt | js/orderProcessingService.js:83-111 | an entry is created from its group's first element and receives every element of the group in order |
| Grouping.GroupedFilterAppend | js/orderProcessingService.js:66-112 | one more input element is one upsert when it passes the branch's test, and changes nothing otherwise |
| Grouping.FoldAppend | js/orderProcessingService.js:98-111 | adding one more element to an entry is one more step of the fold |
| Grouping.Lines | map/map.js:261 | `map` keeps the length and maps each element in place |
| Grouping.PushAll | js/orderProcessingService.js:185 | pushing the lines of a group one at a time gives the bucket of exactly those lines, in order |
| Grouping.PushLines | map/map.js:200-204 | pushing a mapped line per order gives the bucket of the mapped lines, in order |
| Grouping.GroupByCounterpart | js/orderProcessingService.js:177-187 | the `forEach` loop builds, in place, one bucket per counterpart key in first-seen order, with the first line's flag and every line of that key in order |
| Grouping.BucketsPartition | js/orderProcessingService.js:177-187 | the buckets together hold every line exactly once, and each bucket holds exactly its key's lines |
| Grouping.Filter | js/orderProcessingService.js:66 | the selected elements are elements of the input that pass the test, and every such element is selected |
| Grouping.FilterAppend | js/orderProcessingService.js:66 | one more element is selected exactly when it passes the test |
| Grouping.FilterPartition | js/orderProcessingService.js:130 | when a test is split into two exclusive tests, the two selections together are the selection by the test, each element once |
| Grouping.FilterSelectHead | js/orderProcessingService.js:83-95 | a group's first element is the first input element that passes the branch's test with that key |
| Grouping.KeysOf | js/orderProcessingService.js:111 | a `Set` filled in a loop holds exactly the keys of the added elements |
| Grouping.KeysOfCount | js/orderProcessingService.js:174 | the size of the id set is at most the number of lines, and equals it exactly when no id repeats |
| Grouping.KeysOfFilterAppend | js/orderProcessingService.js:45-47 | one more element adds its key to the set exactly when it passes the test |
| Grouping.KeysOfFilter | js/orderProcessingService.js:43-48 | a key is in the set exactly when some input element passes the test and has that key |
| Grouping.GroupedFilterKeys | js/orderProcessingService.js:83-95 | a dictionary has exactly one entry per key of an element that passes the branch's test, in first-seen order |
| Grouping.MapValues | js/orderProcessingService.js:173-188 | a final pass over a dictionary keeps its keys and transforms each entry on its own |
| Grouping.FindIndex | map/map.js:207 | `findIndex` is -1 exactly when no element matches, otherwise the position of the first match |
| Grouping.Firsts | map/map.js:207-240 | one element per key, in first-seen order, each having its key |
| Grouping.FirstsAreHeads | map/map.js:207-240 | the element kept for a key is the first element with that key |
| Grouping.FirstsFilterAppend | map/map.js:207-240 | one more element is kept exactly when it passes the test and its key is new |
| Grouping.FirstOfFilterAt | map/map.js:207-240 | the element kept for the i-th key is the first input element that passes the test with that key |
| Grouping.FilterKeySeen | map/map.js:207-240 | the key of every element that passes the test is among the kept keys |
| Classifier.Classify | js/orderProcessingService.js:5-224 | the closed form of the whole classification. What it means is stated against the input orders by `StatusSellersMembers` (counters), `SellerSection`, `SellerHeader`, `SellerIsAlsoCustomer`, `SellerCounts` and `SellerBuckets` (seller cards), and `DeliverySplit`, `CustomerSection`, `CustomerCard` and `CustomerBuckets` (customer cards) |
| Classifier.ProcessOrderData | script.js:92-292 | the loops compute exactly `Classify`: the three counters, the three dictionaries in first-seen key order, and the final pass over each card (legacy copy by `OrderID`, service copy by `DbID`) |
| Classifier.ServiceProcessOrderData | js/orderProcessingService.js:5-224 | the array is normalised in place with the service's rules, then classified by `DbID` |
| Classifier.CollectCustomerNames | js/orderProcessingService.js:43-48 | the first loop collects exactly the trimmed, non-empty customer names of the whole input |
| Classifier.CountSeller | js/orderProcessingService.js:59-63 | an order of a Bahrain seller adds its trimmed seller (possibly absent) to the counter of its own status only; any other order changes no counter |
| Classifier.CountStatus | js/orderProcessingService.js:59-63 | the same, over the trimmed country, the normalised status and the trimmed seller |
| Classifier.AddPickupOrder | js/orderProcessingService.js:66-112 | a complete pending order of a Bahrain seller is upserted into its seller's card; any other order leaves the cards unchanged |
| Classifier.AddDeliveryOrder | js/orderProcessingService.js:115-130 | a complete picked-up order is upserted into the local dictionary when its customer's country is "BH" and into the Siin one otherwise; any other order changes neither |
| Classifier.AddCustomerOrder | js/orderProcessingService.js:132-168 | a new card from the order's customer details when the name is new, then the line, the row index and the id added, and the total added to `unpaidTotal` unless paid |
| Classifier.FinishSellers | js/orderProcessingService.js:173-188 | every seller card gets `orderCount` = the number of distinct ids and its lines split by customer; keys and other fields are unchanged |
| Classifier.FinishCustomers | js/orderProcessingService.js:191-224 | every customer card gets `orderCount` = the number of distinct ids and its lines split by seller |
| Classifier.PickupComplete | js/orderProcessingService.js:67-77 | seller, number, both coordinates and id present and non-empty after trimming; `AddPickupOrder` is proved to upsert exactly the orders that pass it, and `JsText.TruthyTrimmed` states which values pass |
| Classifier.DeliveryComplete | js/orderProcessingService.js:116-127 | customer, number, both coordinates and id present and non-empty after trimming; `AddDeliveryOrder` is proved to upsert exactly the orders that pass it |
| Classifier.IsPickup | js/orderProcessingService.js:66-77 | a line of some pickup card; `ClassifierFacts.SellerSection` states one card per distinct seller among exactly these orders, and `StatusUpdate.MarkedLeaveCards` that a marked order stops being one |
| Classifier.IsDelivery | js/orderProcessingService.js:115-127 | a line of some delivery card; `ClassifierFacts.DeliverySplit` states that these orders are split between the two delivery sections, each exactly once |
| Classifier.IsLocalCustomer | js/orderProcessingService.js:130 | the section choice; `ClassifierFacts.CustomerSection` states which cards each section holds, and `ClassifierFacts.SellerCountryIgnored` that the seller's country plays no part |
| Classifier.CustomerNames | js/orderProcessingService.js:43-48 | the set of trimmed, non-empty customer names; `CollectCustomerNames` is proved to build it, and `ClassifierFacts.SellerIsAlsoCustomer` states that `isAlsoCustomer` is membership in it |
| Classifier.StatusSellers | js/orderProcessingService.js:58-63 | a status counter; `ClassifierFacts.StatusSellersMembers` states its members, and `CountStatus` is proved to build it |
| Classifier.NewSeller | js/orderProcessingService.js:83-95 | the card made for a seller's first qualifying order; `ClassifierFacts.SellerHeader` states that a card's header is that order's, and `ClassifierFacts.SellerIsAlsoCustomer` what `isAlsoCustomer` means |
| Classifier.AddPickup | js/orderProcessingService.js:98-111 | one pickup order added to its card; `ClassifierFacts.AddPickupFold` states what a run of them appends, and `ClassifierFacts.SellerCounts` what a card then holds |
| Classifier.NewCustomer | js/orderProcessingService.js:133-146 | the card made for a customer's first delivery order; `ClassifierFacts.CustomerHeaderIsFirst` and `ClassifierFacts.CustomerCard` state that a card's header is that order's |
| Classifier.AddDelivery | js/orderProcessingService.js:148-168 | one delivery order added to its card; `ClassifierFacts.DeliveryFoldOrders`, `DeliveryFoldUnpaid`, `DeliveryFoldRows`, `DeliveryFoldIds` and `DeliveryFoldHeader` state what a run of them does to each field |
| Classifier.FinishSeller | js/orderProcessingService.js:173-188 | the final pass over one seller card; `FinishSellers` is proved to apply it to every card, and `ClassifierFacts.SellerCounts` and `ClassifierFacts.SellerBuckets` state the count and the buckets it produces |
| Classifier.FinishCustomer | js/orderProcessingService.js:191-224 | the final pass over one customer card; `FinishCustomers` is proved to apply it to every card, and `ClassifierFacts.CustomerCard` and `ClassifierFacts.CustomerBuckets` state the count and the buckets it produces |
| Classifier.CountersStep | js/orderProcessingService.js:58-63 | one more order changes the three counters exactly as the status chain does |
| Classifier.CardsStep | js/orderProcessingService.js:65-169 | one more order is one upsert into the dictionary it belongs to, and changes the other two not at all |
| ClassifierFacts.SellerSection | js/orderProcessingService.js:66-95 | exactly one seller card per distinct trimmed seller among complete pending orders of Bahrain sellers, in first-seen order |
| ClassifierFacts.SellerHeader | js/orderProcessingService.js:83-95 | a seller card's name, number and coordinates are those of that seller's first qualifying order; later orders never overwrite them |
| ClassifierFacts.SellerIsAlsoCustomer | js/orderProcessingService.js:80 | `isAlsoCustomer` holds exactly when the seller's name is the trimmed, non-empty customer of some order anywhere in the input, whatever its status |
| ClassifierFacts.SellerCounts | js/orderProcessingService.js:108-111 | a seller card's lines, row indices and ids are those of exactly its qualifying orders in input order; `orderCount` is the number of distinct ids, at most the number of lines, equal to it exactly when no id repeats |
| ClassifierFacts.SellerBuckets | js/orderProcessingService.js:177-187 | `ordersByCustomer` has one bucket per customer in first-seen order, with the first line's flag and that customer's lines in order, and holds every line exactly once |
| ClassifierFacts.SellerCardShape | js/orderProcessingService.js:83-111 | closed form of a seller card before the final pass |
| ClassifierFacts.CustomerCardShape | js/orderProcessingService.js:133-168 | closed form of a customer card before the final pass, with `unpaidTotal` summed over the unpaid lines |
| ClassifierFacts.AddPickupFold | js/orderProcessingService.js:98-111 | adding a seller's orders one at a time appends their lines and `DbID`s in order and adds their ids to the id set |
| ClassifierFacts.DeliveryFoldOrders | js/orderProcessingService.js:149-157 | adding a customer's orders one at a time appends their lines in order |
| ClassifierFacts.DeliveryFoldUnpaid | js/orderProcessingService.js:159-162 | adding a customer's orders one at a time adds to `unpaidTotal` the totals of exactly the unpaid lines |
| ClassifierFacts.DeliveryFoldRows | js/orderProcessingService.js:165 | adding a customer's orders one at a time appends their `DbID`s in order |
| ClassifierFacts.DeliveryFoldIds | js/orderProcessingService.js:168 | adding a customer's orders one at a time adds their ids to the id set |
| ClassifierFacts.DeliveryFoldHeader | js/orderProcessingService.js:133-146 | adding orders to a customer card never changes its header fields |
| ClassifierFacts.UnpaidSumAppend | js/orderProcessingService.js:160-162 | one more line adds its total to the unpaid sum exactly when it is unpaid |
| ClassifierFacts.CustomersOf | js/orderProcessingService.js:130 | each customer section is the final pass over the grouping of its own orders |
| ClassifierFacts.DeliverySplit | js/orderProcessingService.js:129-130 | taken together, the local and the Siin sections' orders are the complete picked-up orders, each exactly once |
| ClassifierFacts.CustomerSection | js/orderProcessingService.js:115-130 | exactly one card per distinct trimmed customer among complete picked-up orders whose customer country is "BH" (local) or anything else (Siin), in first-seen order |
| ClassifierFacts.CustomerCard | js/orderProcessingService.js:132-168 | a customer card's header is that of its first order in the section; its lines, row indices and ids are those of exactly its orders; `orderCount` counts distinct ids; `unpaidTotal` is the sum of the totals of exactly the lines not paid |
| ClassifierFacts.CustomerHeaderIsFirst | js/orderProcessingService.js:133-146 | the order a customer card's header comes from is the first input order of that section with that customer |
| ClassifierFacts.CustomerBuckets | js/orderProcessingService.js:195-205 | `ordersBySeller` partitions a customer card's lines by seller, one bucket per seller in first-seen order |
| ClassifierFacts.BucketsOf | js/orderProcessingService.js:177-187 | the counterpart grouping of any list of lines is a partition into first-seen buckets |
| ClassifierFacts.StatusSellersMembers | js/orderProcessingService.js:58-63 | a counter holds exactly the trimmed sellers of the Bahrain sellers' orders with that status |
| ClassifierFacts.CounterStep | js/orderProcessingService.js:58-63 | an order of a seller outside Bahrain changes no counter, and a Bahrain seller's order changes only the counter of its status |
| ClassifierFacts.SellerCountryIgnored | js/orderProcessingService.js:129-130 | the section a delivery order lands in does not depend on the seller's country |
| Route.HasOwnItems | js/uiRendererService.js:18-29 | `hasOwnItems`: false unless the seller is also a customer, and then whether some order to the untrimmed name is picked up; `ScanReceivesPickedUp` and `ComputeHasOwnItems` are proved against it |
| Route.ScanReceivesPickedUp | map/map.js:217-223 | the scan with early `break` finds exactly whether some order has `Customer` equal to the name, untrimmed, and status "picked up" |
| Route.ComputeHasOwnItems | map/map.js:213-224 | `hasOwnItems` is false unless the seller is also a customer, and then it is the result of the scan |
| Route.CompareStops | map/map.js:249-256 | the route comparator; `CompareStopsIsStopKey` shows it agrees in sign with the key (own items first, then distance), and `StopKeyOrder` says what that order means |
| Route.CompareStopsIsStopKey | map/map.js:249-256 | the comparator says "not after" and "equal" exactly when the key (has own items first, then distance) does |
| Route.StopKeyOrder | js/uiRendererService.js:34-41 | ordered by the key, a stop with own items comes first, and within one class the distance does not decrease |
| Route.RouteCoordinates | map/map.js:259-262 | the route is the driver's start followed by each stop's point in order, one longer than the stops |
| Route.DistanceFromDriver | js/uiRendererService.js:9-16 | the distance from the driver's fixed starting point to a location's parsed coordinates, with `parseFloat` and the great-circle distance as parameters; `Renderer.AnnotateSellers` gives every card this distance, and `Route.StopKeyOrder` orders stops by it after `hasOwnItems` |
| Route.ReceivesPickedUp | js/uiRendererService.js:22-28 | some order to the untrimmed name is picked up; `ScanReceivesPickedUp` is proved to find exactly this, and `HasOwnItems` is this guarded by `isAlsoCustomer` |
| Sorting.Sort | js/uiRendererService.js:34-41 | the stable sort by a key: keeps the length; `SortSortedPermutation`, `SortStable` and `StableSortIsSort` state that it is ordered, a permutation, stable, and the result of any stable sort by that key |
| Sorting.Insert | js/uiRendererService.js:34-41 | inserting keeps every element and adds one |
| Sorting.InsertMultiset | js/uiRendererService.js:34-41 | insertion adds exactly the new element |
| Sorting.InsertSorted | js/uiRendererService.js:34-41 | insertion into a sorted list keeps it sorted |
| Sorting.InsertStable | script.js:310-314 | insertion keeps the order of elements with equal keys and puts the new one after them |
| Sorting.SortSortedPermutation | js/uiRendererService.js:34-41 | the sorted list is ordered by the key and is a permutation of the input |
| Sorting.SortStable | script.js:310-314 | elements with equal keys keep their input order |
| Sorting.SortedUnique | script.js:310-314 | two sorted lists with the same elements per key, in the same order, are equal |
| Sorting.StableSortIsSort | script.js:310-314 | every stable sort by the key (such as `Array.prototype.sort` with these comparators) gives the model's sorted list |
| Sorting.InsertAt | js/uiRendererService.js:34-41 | inserting after the last element not greater than the new one is the insertion |
| Sorting.InsertInPlace | js/uiRendererService.js:34-41 | shifting the larger elements of a sorted prefix right and dropping the element into the gap, in place, is the insertion; the rest of the array is unchanged |
| Sorting.InsertionSort | js/uiRendererService.js:34-41 | sorting the array in place leaves the stable sort of its old contents by the key |
| Renderer.AnnotateSellers | js/uiRendererService.js:9-30 | every card gets its distance from the driver and its `hasOwnItems` flag |
| Renderer.OrderPickupSection | js/uiRendererService.js:9-41 | the pickup section is the annotated cards, sorted in place by the route key; no card is added or dropped |
| Renderer.PickupSectionOrder | js/uiRendererService.js:34-41 | after the sort, own-item cards come first, distance does not decrease within a class, and the cards are a permutation of the input |
| Renderer.LegacyCompare | script.js:310-314 | the legacy seller comparator by `isAlsoCustomer`; `LegacyCompareIsLegacyOrder` shows it compares exactly that key |
| Renderer.LegacyCompareIsLegacyOrder | script.js:310-314 | the legacy comparator compares exactly "is also a customer" |
| Renderer.LegacySortSellers | script.js:310-314 | the in-place legacy sort is the stable sort by that key |
| Renderer.LegacySortOrder | script.js:310-314 | sellers who are also customers come after all others, and both kinds keep their input order |
| Renderer.DeliveryCompareIsDeliveryOrder | script.js:437 | `b.orderCount - a.orderCount` compares exactly the key "larger count first" |
| Renderer.SortCustomersByCount | js/uiRendererService.js:176 | the in-place sort of a delivery section is the stable sort by that key |
| Renderer.DeliverySortOrder | js/uiRendererService.js:307 | after the sort, order counts never increase, no card is added or dropped, and cards with equal counts keep their input order |
| Renderer.DisplayItem | js/uiRendererService.js:135 | showing an item throws exactly when the line has no item |
| Renderer.DisplayItemStripsOnce | js/uiRendererService.js:266 | exactly one leading "1x " is removed, even when another follows; text without it is shown unchanged |
| Renderer.DisplayItemRestores | js/uiRendererService.js:379 | putting "1x " back in front of the shown text gives the item when one was removed, and otherwise the shown text is the item |
| Renderer.StartsWithOne | js/uiRendererService.js:135 | the text starts with "1x "; `DisplayItemStripsOnce` and `DisplayItemRestores` state what is shown with and without it |
| StatusUpdate.FindByDbId | js/orderService.js:28 | -1 exactly when no record has the `DbID`, otherwise the position of the first that does |
| StatusUpdate.SetStatus | js/orderService.js:28-31 | one id's update keeps the array's length; `MarkAllAt` states which record changes |
| StatusUpdate.MarkAll | js/orderService.js:27-32 | the whole update keeps the length; `MarkAllAt` gives its closed form, `MarkedIsFirstMatch` which records it marks, `MarkAllIdempotent` that it can be repeated |
| StatusUpdate.ApplyStatus | js/orderService.js:27-32 | the loop over the ids writes the status in place, giving exactly `MarkAll` of the old array |
| StatusUpdate.FindSameIds | js/orderService.js:28 | the lookup depends only on the records' `DbID`s |
| StatusUpdate.MarkAllAt | js/orderService.js:27-32 | after the update, the first record with each listed id has the new status; every other record, and every other property, is unchanged |
| StatusUpdate.MarkedStep | js/orderService.js:27-32 | a record is marked by the ids exactly when it is marked by all but the last id or is the first match of the last one |
| StatusUpdate.MarkedIsFirstMatch | script.js:761-766 | a record is updated exactly when it is the first record with one of the listed ids; ids that match nothing change nothing |
| StatusUpdate.MarkAllIdempotent | js/orderService.js:81-86 | applying the same update twice leaves the same array as applying it once |
| StatusUpdate.WrittenStatuses | js/orderProcessingService.js:54 | "Picked Up" and "Delivered" read as "picked up" and "delivered" once trimmed and lower-cased |
| StatusUpdate.MarkedLeaveCards | js/orderService.js:49 | after "mark all as picked up" no marked order is a pickup line; after "mark all as delivered" a marked order is on no card |
| StatusUpdate.PickupsAfterMarking | js/orderService.js:26-49 | after "mark all as picked up", the orders behind the seller cards are exactly the pickup orders that were not marked |
| StatusUpdate.ServiceMarkAll | js/orderService.js:20-55 | when the API call fails nothing changes; when it succeeds the listed orders get the status, the array is normalised and reclassified |
| StatusUpdate.LegacyMarkAll | script.js:788-812 | the legacy update writes the status without an API call, then reclassifies by `OrderID` |
| Dates.IndexOf | js/dateUtils.js:6 | -1, or a position where the separator occurs; `IndexOfIsFirst` states that -1 means the separator occurs nowhere and otherwise the position is the first occurrence |
| Dates.IndexOfIsFirst | js/dateUtils.js:6 | the search is -1 exactly when the separator occurs nowhere, and otherwise finds an occurrence with none before it |
| Dates.Split | js/dateUtils.js:6 | `split` gives at least one piece |
| Dates.SplitJoin | js/dateUtils.js:6-8 | joining the pieces of a split with the separator gives the string back |
| Dates.SplitWithout | js/dateUtils.js:7 | a string without the separator's first character splits into itself |
| Dates.IndexOfAfter | js/dateUtils.js:6 | a separator found after a prefix without it is found at the end of that prefix |
| Dates.SplitAfter | js/dateUtils.js:6 | a prefix without the separator, then the separator, splits off as the first piece |
| Dates.Nth | js/dateUtils.js:7-8 | destructuring gives `undefined` beyond the end of the array |
| Dates.DigitsValue | js/dateUtils.js:11-15 | a run of decimal digits has a non-negative value |
| Dates.NumberOf | js/dateUtils.js:11-15 | `Number(undefined)` is NaN and `Number` of empty or all-white-space text is 0; `NumberOfDigits` and `NonDigitIsNaN` state the other cases |
| Dates.NonDigitIsNaN | js/dateUtils.js:11-15 | in the model, text whose trimmed form has a character other than a digit anywhere but in a leading sign is NaN |
| Dates.NaNComponent | js/dateUtils.js:10-16 | one NaN among the day, month, year, hour and minute makes the date invalid |
| Dates.ParseOfParts | js/dateUtils.js:6-16 | a text containing ", " is read from the "/" pieces of its first part and the ":" pieces of its second |
| Dates.NonNumericComponent | js/dateUtils.js:5-17 | in the model, a component whose text holds a letter makes the parse give an invalid date, not throw |
| Dates.NonNumericExample | js/dateUtils.js:5-17 | "04/xx/2025, 14:30" parses to an invalid date |
| Dates.NumberOfDigits | js/dateUtils.js:11-15 | `Number` of a run of digits is its decimal value |
| Dates.TimeClip | js/dateUtils.js:10-16 | a time value is valid exactly within the ECMAScript range of 8.64e15 ms |
| Dates.DayFromYear | js/dateUtils.js:10-16 | the day number of 1 January of a year, as the ECMAScript `Date` constructor computes it; `ExampleTime` checks it on 2025 |
| Dates.MakeDay | js/dateUtils.js:10-16 | ECMAScript MakeDay: months beyond the year carry into it; `ParseExample` shows 4 May 2025, 14:30 is 1746369000000 ms |
| Dates.FullYear | js/dateUtils.js:10-11 | a year from 0 to 99 means 1900 to 1999, stated as `TwoDigitYear` |
| Dates.ParseCustomDate | js/dateUtils.js:5-17 | `parseCustomDate`, stated by `ParseThrowsExactly` (when it throws), `ParseFormatted` and `ParseParts` (what it reads), `NonNumericComponent` (when the date is invalid) and `ParseExample` |
| Dates.NewDate | js/dateUtils.js:10-16 | the date is invalid as soon as one component is NaN |
| Dates.DateOfParts | js/dateUtils.js:11-15 | a missing year or minute is NaN |
| Dates.PartsInOrder | js/dateUtils.js:11-15 | the year comes from the third piece of the date part, the month from the second and the day from the first; the hour and the minute come from the time part |
| Dates.MonthOfDigits | js/dateUtils.js:12 | the month component is the month read from the text, minus one |
| Dates.ParseThrowsExactly | js/dateUtils.js:6-8 | the parse throws exactly when the value is absent or has no ", " |
| Dates.ParseParts | js/dateUtils.js:6-16 | a text made of digit pieces is read component by component, the month zero-based |
| Dates.ParseFormatted | script.js:50-61 | a timestamp "DD/MM/YYYY, HH:mm" written from runs of digits is read back as the date of those components, the month zero-based |
| Dates.SplitTimestamp | script.js:51 | such a timestamp splits on ", " into its date and its time part |
| Dates.SplitDigitPair | script.js:53 | two digit runs joined by ":" split back into the two |
| Dates.SplitDigitTriple | script.js:52 | three digit runs joined by "/" split back into the three |
| Dates.ParseExample | script.js:49 | "04/05/2025, 14:30" is 4 May 2025, 14:30 UTC |
| Dates.TwoDigitYear | js/dateUtils.js:10-11 | a year from 0 to 99 is read as 1900 to 1999 |
| Dates.ScanRange | js/dataService.js:43-52 | the scan throws when some record's date throws; when the first date is invalid both ends stay invalid; when it is valid, both ends are dates of records and every valid date lies between them |
| Dates.GetDateRange | js/dataService.js:37-55 | null ends for a non-array or empty input, otherwise the scan of the `CreatedAt` dates (the same for script.js:71-89) |
| Dates.Before | js/dataService.js:50-51 | `date < other` on time values, false when either is invalid; `ScanRange` states that with it the two ends bound every valid date |
| MapView.AddToDetails | map/map.js:189-204 | the nested upsert of one order into `ordersBySeller[seller][customer]` |
| MapView.InnerFoldIsGrouped | map/map.js:193-204 | adding a seller's orders one at a time to its inner object groups them by customer |
| MapView.DetailsShape | map/map.js:189-204 | the order details nest seller, then customer, then lines: keys in first-seen order at both levels, each bucket with the first order's flag and exactly its orders' lines |
| MapView.DetailsPartition | map/map.js:189-204 | every included order is in exactly one seller entry, and within it in exactly one customer bucket |
| MapView.PickupFind | map/map.js:207 | `findIndex` by name misses exactly when the seller has no location yet |
| MapView.SameDetailsKey | map/map.js:241-244 | re-pointing an existing location at its seller's details changes nothing in the model |
| MapView.PickupIteration | map/map.js:170-245 | an eligible order is upserted into the details and, when its seller is new, adds a location; any other order changes nothing |
| MapView.CollectPickups | map/map.js:169-246 | the loop leaves one location per seller in first-seen order and the nested details of the eligible orders |
| MapView.ProcessPickupData | map/map.js:138-262 | the array is normalised in place with the map view's rules; the view holds the locations sorted by the route key, the details and the route |
| MapView.PickupViewOf | map/map.js:138-262 | the closed form of the pickup view `ProcessPickupData` is proved against; `PickupViewOrder`, `PickupRoute`, `PickupLocationsShape`, `PickupLocationFacts` and `DetailsShape` state what it holds |
| MapView.PickupViewOrder | map/map.js:249-256 | after the sort, own-item locations come first, distance does not decrease within a class, and the locations are a permutation of the input |
| MapView.PickupRoute | map/map.js:259-262 | the route is one longer than the locations: the driver's start, then each location's coordinates in sorted order |
| MapView.PickupLocationAtIndex | map/map.js:207-240 | the i-th location is built from the first eligible order of the i-th seller |
| MapView.PickupLocationsShape | map/map.js:207-244 | one location per distinct seller among BH pending orders with non-empty coordinates; number and id are not required |
| MapView.PickupLocationFacts | map/map.js:210-224 | `isDual` holds exactly when the seller is some order's trimmed customer; `hasOwnItems` holds exactly when `isDual` holds and some order to that name is picked up; the location's details exist |
| MapView.DualMeansCustomer | map/map.js:153-161 | a name is in the customer-name set exactly when it is the trimmed, non-empty customer of some order |
| MapView.CustomerNameSeen | map/map.js:156-160 | every trimmed, non-empty customer is in the set |
| MapView.DetailsKeyPresent | map/map.js:189-191 | every included order's seller has an entry in the details |
| MapView.DeliveryFind | map/map.js:329 | `findIndex` by name misses exactly when the customer has no location yet |
| MapView.SameDeliveryKey | map/map.js:340-343 | re-pointing an existing location at its customer's details changes nothing in the model |
| MapView.DeliveryIteration | map/map.js:290-343 | an eligible order is upserted into the details and, when its customer is new, adds a location; any other order changes nothing |
| MapView.CollectDeliveries | map/map.js:289-345 | the loop leaves one location per customer in first-seen order and the nested details of the eligible orders |
| MapView.ProcessDeliveryData | map/map.js:269-345 | the array is normalised in place; the view holds the locations in first-seen order, their details and the map's bounds |
| MapView.DeliveryViewOf | map/map.js:269-372 | the closed form of the delivery view `ProcessDeliveryData` is proved against; `DeliveryLocationsShape`, `DeliveryLocationFacts`, `DeliveryBounds` and `DetailsShape` state what it holds |
| MapView.DeliveryLocationAtIndex | map/map.js:329-339 | the i-th location is built from the first eligible order of the i-th customer |
| MapView.DeliveryLocationsShape | map/map.js:297-343 | one location per distinct customer among picked-up orders with non-empty coordinates, with no country split |
| MapView.DeliveryLocationFacts | map/map.js:338 | a location's details exist |
| MapView.DeliveryBounds | map/map.js:369-372 | the points the map is fitted to are the driver's start, then each location's coordinates |
| MapView.PickupEligible | map/map.js:177-186 | a pending order of a Bahrain seller with both seller coordinates non-empty; `PickupLocationsShape` states one location per distinct seller among exactly these orders, and `PickupIteration` that no other order changes the view |
| MapView.DeliveryEligible | map/map.js:297-307 | a picked-up order with both customer coordinates non-empty; `DeliveryLocationsShape` states one location per distinct customer among exactly these orders, and `DeliveryIteration` that no other order changes the view |
| MapView.PickupLocationAt | map/map.js:207-240 | the location pushed for a seller's first eligible order; `PickupLocationAtIndex` states which order each location comes from, and `PickupLocationFacts` what its `isDual` and `hasOwnItems` mean |
| MapView.DeliveryLocationAt | map/map.js:329-339 | the location pushed for a customer's first eligible order; `DeliveryLocationAtIndex` states which order each location comes from, and `DeliveryLocationFacts` where its details are |

## Left out

- HTTP and async plumbing (`fetch`, `response.json()`, the POST of the status API) is not modelled. The API outcome is the boolean `apiOk` of `StatusUpdate.ServiceMarkAll`, and both failure paths (`!response.ok` and a thrown error) are that boolean being false.
- The DOM is not modelled: cards, badges, buttons, alerts, counters written to the page, scroll buttons, the Leaflet map, markers, polyline and modal, the auth overlay, and the navigation wrappers. They only present what the model computes.
- The `window.csvColumnIndices` global that the classifier writes is not modelled. No modelled code reads it.
- The Haversine `calculateDistance`/`deg2rad` and `parseFloat` of coordinates are parameters (`Route.Geo`). This keeps floating point out of the model. Because a distance here is a real, a NaN distance, which would make the comparator inconsistent, is not modelled.
- `parseFloat(order.Total || 0)` is not modelled: a delivery line's total is the already-parsed number `Order.amount`. Float addition in `unpaidTotal` is exact real addition.
- Numbers in the feed (ids, phone numbers, coordinates, totals of pickup lines) are modelled as their text, which is what `toString().trim()` yields. `null` and `undefined` are one absent value.
- `formatMonthDay` (`toLocaleDateString`) is not modelled, because it is locale-dependent.
- The `Date` constructor is computed in UTC instead of the browser's time zone, because the time zone is an input of the environment.
- Dates.NumberOf: `Number` of a string is modelled only for empty text and optionally signed decimal digits. Decimals, exponents, hexadecimal and `Infinity` are NaN in the model, where JavaScript reads them as numbers. The dates this dashboard parses use only digits, and a complete model of the numeric-literal grammar would be a project of its own. `NonDigitIsNaN` and `NonNumericComponent` are stated for this model of `Number`.
- `toLowerCase`/`toUpperCase` map ASCII letters only. Characters outside ASCII are left as they are.
- Dictionary keys are in insertion order. JavaScript enumerates integer-like keys (a seller named "123") first, and that order is not modelled.
- Names that collide with inherited `Object.prototype` properties (a seller named "constructor") are not modelled. They are truthy before any upsert, so the source would skip creating the card and then throw.
- Pickup `orderDetails` is a reference to the inner object of `ordersBySeller`, which later orders keep filling. The model stores the key (`detailsKey`) of that object instead of the shared reference, so aliasing is not modelled. The reference always reaches the final details under that key, as `PickupLocationFacts` and `DeliveryLocationFacts` state.
- `Renderer.DisplayItem`: its own contract states only when showing an item throws. What it shows is stated by `DisplayItemStripsOnce` and `DisplayItemRestores`, because showing the text is the function's whole body.
- `Dates.ScanRange` is stated for any list of records and any date reading. `Dates.GetDateRange` instantiates it with the orders and `parseCustomDate` of `CreatedAt`.
- `StatusUpdate.ServiceMarkAll` and `StatusUpdate.LegacyMarkAll` take the array the update writes to as a parameter. In the source it is the global `jsonData`.
