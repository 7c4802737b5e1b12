# PC builder: build-configuration engine

A Dafny model of the decision logic of the PC-builder page (`src/App.jsx`).
A buyer drags catalog parts into eight slots (processor, motherboard, memory,
graphics card, storage, cooler, power supply, case). The page keeps two maps:
the part in each slot and each slot's quantity. It checks every drop for
socket and memory-type compatibility. It caps the memory stepper at four
physical slots. From the two maps it derives the price total, the wattage
total (with a fixed 100 W baseline), the over-power indicator, the
memory-stick count and the lines of the quote message. A second piece turns
storefront products, described by `key:value` tags, into catalog parts. The
catalog search filter is modelled too.

Modules, one per concern:

- `wrappers.dfy`: `Option`.
- `text.dfy`: the JavaScript string operations the tag parser and the search use (`trim`, `toLowerCase`, `split(':')`, `includes`).
- `parts.dfy`: the `Part` record, the eight slot keys in bill order, and JavaScript's `x || d` on numbers.
- `compatibility.dfy`: `validateDrop`, with its four ordered checks and a rejection reason for each.
- `metrics.dfy`: `totalPrice`, `totalWattage`, the power indicator, `totalRamSticks` and the quote lines.
- `engine.dfy`: the `Build` class holding the two maps, with the three handlers (drop, remove, quantity stepper).
- `shopify.dfy`: `parseShopifyData`, as a method whose loops follow the source's `forEach`es.
- `search.dfy`: the search filter.

The model follows the code as written:

- An attribute missing on one side of a check compares unequal to one present on the other, so the drop is refused. Attributes are `Option` values compared by equality.
- A drop never checks that the part's own `type` matches the slot it is dropped on.
- The quantity stepper writes a quantity for any key, occupied or not (`Engine.UpdateOnEmptySlotUnpairs`). "A quantity exists exactly for occupied slots" holds only because the page shows the stepper for occupied slots alone (`Engine.UpdateKeepsPaired`).
- The storefront tag `watts` fills a part's `power`, not its `watts`. A storefront power supply therefore adds its rating to the wattage total. The indicator then compares the total against 0, so with non-negative power draws it is always red (`Shopify.StorefrontPsuIsAlwaysOverPower`).
- The page has no reset operation.

## Model

| member | source | states |
|---|---|---|
| `Text.Trim` | src/App.jsx:159-160 | The result is what remains of the input after removing the ECMA-262 whitespace and line terminators at both ends. It is empty exactly when the input is all such characters, and otherwise starts and ends with a non-space character. |
| `Text.Lower` | src/App.jsx:159 | Same length as the input; each ASCII capital becomes its lower-case letter and every other character is kept. |
| `Text.SplitPair` | src/App.jsx:156 | The key contains no colon. The value is absent exactly when the tag has no colon, and then the key is the whole tag. Otherwise the tag starts with key, ':' and value, and the value ends at the tag's end or at its second colon. |
| `Parts.OrDefault` | src/App.jsx:193 | JavaScript `x \|\| d`: a present non-zero number is kept; an absent value or 0 gives the default. |
| `Parts.QtyOf` | src/App.jsx:193 | `quantities[key] \|\| 1`: the stored quantity when non-zero, and 1 when the slot has no quantity or a stored 0; never 0. |
| `Parts.CategoryKeysDistinct` | src/App.jsx:62-71 | No two slots of the bill order share a key. |
| `Parts.CategoriesAreTheKeys` | src/App.jsx:62-71 | The bill order lists exactly the eight slot keys, each once. |
| `Compatibility.ValidateDrop` | src/App.jsx:235-253 | Every reported rejection names a real clash with the values that differ. A drop is accepted exactly when no clash of any of the four kinds exists. Slots other than processor, motherboard and memory are always accepted. |
| `Compatibility.AcceptedDropKeepsConsistent` | src/App.jsx:228-231 | An accepted drop never breaks socket or memory-type agreement that held before it. |
| `Compatibility.RemovalKeepsConsistent` | src/App.jsx:255-263 | Removing a slot never breaks socket or memory-type agreement. |
| `Compatibility.SocketClashIsSymmetric` | src/App.jsx:236-243 | A processor and a motherboard with different sockets are refused whichever is placed second, with the matching reason. |
| `Compatibility.RamTypeClashIsSymmetric` | src/App.jsx:244-251 | Memory and a motherboard with different memory types are refused whichever is placed second, unless a socket clash is reported first. |
| `Compatibility.MatchingSocketsAcceptedEitherOrder` | src/App.jsx:236-243 | A processor and a motherboard with equal sockets are both accepted into an empty build, in either order. |
| `Compatibility.SocketClashReportedFirst` | src/App.jsx:236-251 | A motherboard that clashes with both the processor and the memory is refused with the socket reason, since the checks run in a fixed order. |
| `Metrics.SumPick` | src/App.jsx:191-195 | The `reduce` over the build's keys does not depend on key order: any slot can be taken out of the sum first. |
| `Metrics.Sum` | src/App.jsx:191-195 | The `reduce` as an order-free sum over a set of slot keys: 0 for no keys, and never negative when every slot's contribution is non-negative. |
| `Metrics.TotalPrice` | src/App.jsx:190-196 | The empty build costs 0. |
| `Metrics.TotalWattage` | src/App.jsx:198-204 | The empty build draws exactly the 100 W baseline. |
| `Metrics.PlaceChangesTotal` | src/App.jsx:190-204 | Placing a part with quantity 1 swaps the slot's old contribution to either total for the part's own price or power. All other slots contribute as before. |
| `Metrics.RemoveChangesTotal` | src/App.jsx:190-204 | Emptying a slot lowers either total by exactly that slot's price (or power) times quantity; an empty slot changes nothing. |
| `Metrics.QuantityChangesTotal` | src/App.jsx:190-196 | Changing an occupied slot's quantity from m to a non-zero n changes a total by the part's figure times (n − m). The price total is therefore linear in the quantity. |
| `Metrics.WattageAtLeastBaseline` | src/App.jsx:198-204 | With non-negative power draws and quantities, the wattage total is at least the baseline. |
| `Metrics.PsuRating` | src/App.jsx:634 | `build.psu?.watts \|\| 0`: 0 without a power supply or without a rating, otherwise the power supply's `watts`. |
| `Metrics.OverPower` | src/App.jsx:634 | The indicator is red exactly when the wattage total exceeds the power supply's `watts`, or exceeds 0 when there is no power supply or no rating. |
| `Metrics.OverPowerWithoutRating` | src/App.jsx:634 | With non-negative power draws and quantities, no power supply, or one whose `watts` is absent or 0, turns the indicator red. |
| `Metrics.TotalRamSticks` | src/App.jsx:325-328 | The stick count is 0 exactly when no memory is placed. A kit with no stick count and no stored quantity counts as one stick. |
| `Metrics.QuoteLinesOf` | src/App.jsx:280-288 | Each quote line names an occupied slot, with that part's name, the slot's quantity (absent read as 1) and price × quantity. There are no more lines than categories. |
| `Metrics.QuoteListsOccupiedSlots` | src/App.jsx:280-288 | The quote's lines are exactly the occupied slots, each once, in category order, each headed by its category's key and caption (`cat.label`). |
| `Metrics.QuoteLines` | src/App.jsx:280-288 | The quote over the eight categories: at most eight lines, each describing its occupied slot, headed by exactly the occupied categories in bill order. |
| `Metrics.LineSumIsPartialTotal` | src/App.jsx:280-288 | For categories with distinct keys, the line totals add up to the price total over those categories' occupied slots. |
| `Metrics.QuoteAddsUpToTotal` | src/App.jsx:280-288 | When only the eight slot keys are used, the quote's line totals add up to the price total shown on the page. |
| `Engine.NewQuantity` | src/App.jsx:267-268 | The stepper's candidate quantity is the larger of 1 and current + delta, with an absent current quantity read as 1. |
| `Engine.QuantityUpdate` | src/App.jsx:265-275 | No key other than the stepped one changes. The stepped key either keeps its old value (the memory cap refused) or gets the candidate quantity. |
| `Engine.DecrementAtOneKeepsQuantities` | src/App.jsx:267-268 | Decrementing a quantity of 1 changes nothing: the stepper never empties a slot. |
| `Engine.UncappedUpdate` | src/App.jsx:269-273 | Outside the memory slot, or with no kit placed, the new quantity is always written. |
| `Engine.RamCapHolds` | src/App.jsx:269-273 | With a kit placed, a quantity whose sticks would exceed 4 is refused (the map is unchanged), and one within 4 is written. An accepted update leaves at most 4 sticks. |
| `Engine.TwoStickKitStopsAtTwo` | src/App.jsx:269-273 | For a two-stick kit, +1 from 1 reaches 2, and a further +1 stays at 2. |
| `Engine.UpdateKeepsPaired` | src/App.jsx:265-275 | On an occupied slot, the stepper keeps quantities present exactly for occupied slots and at least 1. |
| `Engine.UpdateOnEmptySlotUnpairs` | src/App.jsx:265-275 | On an empty slot, the stepper writes a quantity with no part beside it. |
| `Engine.PlaceKeepsPaired` | src/App.jsx:228-231 | A placement keeps quantities present exactly for occupied slots and at least 1. |
| `Engine.Build.constructor` | src/App.jsx:78-79 | The build starts with no parts and no quantities. |
| `Engine.Build.Drop` | src/App.jsx:221-233 | The verdict is the drop check's. If accepted, the slot holds the part with quantity 1 and nothing else changes. If refused, both maps are unchanged. Pairing and compatibility agreement are kept, and both totals move by the replaced contribution. |
| `Engine.Build.Remove` | src/App.jsx:255-263 | The slot loses its part and its quantity, and nothing else changes. An empty slot is left as it was. Pairing and agreement are kept, and both totals drop by the slot's contribution. |
| `Engine.Build.UpdateQuantity` | src/App.jsx:265-275 | Parts are unchanged and quantities are the stepper's update. Pairing is kept on an occupied slot, and an accepted memory update leaves at most 4 sticks. |
| `Engine.ThreePartBuild` | src/App.jsx:31-60 | The catalog's AM5 processor, AM5/DDR5 motherboard and DDR5 two-stick kit are all accepted. Together they cost 44500 and draw the baseline plus 115 W. |
| `Engine.ThreePartRefusal` | src/App.jsx:235-239 | On that build the catalog's LGA1700 motherboard is refused by the first check, as a processor-socket clash between AM5 and LGA1700, and the build is unchanged. |
| `Engine.ThreePartEdits` | src/App.jsx:265-275 | On that build one memory increment reaches 2 kits (4 sticks) and a second is refused; the parts are unchanged. |
| `Engine.ThreePartRemoval` | src/App.jsx:255-263 | On that build, removing the processor deletes its slot from both maps, leaves the others alone, and the price total falls to 25000. |
| `Shopify.TagValue` | src/App.jsx:155-157 | A tag is skipped exactly when it has no colon or nothing between its first colon and the next. |
| `Shopify.ScanTag` | src/App.jsx:155-168 | A skipped tag, or one whose key is none of the seven keys read, leaves the node's category and attributes unchanged. |
| `Shopify.ReadTags` | src/App.jsx:155-169 | The tag loop's category and attributes are those of the tag fold. |
| `Shopify.ScanTagSetsOneField` | src/App.jsx:159-168 | A tag that is not skipped sets only the field its key names (`watts` sets `power`). A skipped tag sets nothing. |
| `Shopify.NewPart` | src/App.jsx:172-184 | The pushed record: id, name, brand and price from the node, `type` the category, the four text attributes copied from the tags, no `watts`, non-zero sticks (1 when missing, NaN or 0), and power defaulting to 200 for a graphics card or 0 when missing, NaN or 0. |
| `Shopify.Classify` | src/App.jsx:171-172 | `if (category && newData[category])`: kept exactly when the category is one of the eight keys, then as the record for that category; throws exactly for an inherited property name; dropped otherwise. |
| `Shopify.NormalizeNode` | src/App.jsx:147-184 | A kept node is kept under one of the eight keys, as a part of that kind with the node's id. |
| `Shopify.LastTagWins` | src/App.jsx:155-169 | Each field holds the value of the last non-skipped tag with that key, or nothing when there is none. The category is lower-cased, and numbers are read from the last value. |
| `Shopify.KeptExactlyForSlotKeys` | src/App.jsx:171-184 | A node is kept exactly when its last category tag, lower-cased, is one of the eight keys, and it is kept under that key. The parse throws exactly when that category names an inherited object property. |
| `Shopify.KeptPartDefaults` | src/App.jsx:165-181 | `sticks \|\| 1` and `power \|\| (gpu ? 200 : 0)`: when the tag is missing or parses to NaN or 0, sticks are 1 and power is 200 for a graphics card, else 0. Otherwise the parsed number is kept. `watts` is never set. |
| `Shopify.KeptPartAttributes` | src/App.jsx:172-179 | A kept part takes id, name, brand and price from the node. Its socket, memory type, size and cooler type are the last non-skipped tag of each key, or absent. |
| `Shopify.StorefrontPsuIsAlwaysOverPower` | src/App.jsx:165 | A storefront power supply has no `watts`, so with non-negative draws the indicator is always red. |
| `Shopify.KeptUnder` | src/App.jsx:171-184 | Every part listed under a key has that key as its type, no `watts`, and a non-zero stick count. |
| `Shopify.ReadNode` | src/App.jsx:147-185 | One node's callback keeps, drops or throws exactly as the normaliser prescribes. A kept node's category is a slot key. |
| `Shopify.ParseShopifyData` | src/App.jsx:143-188 | The parse throws exactly when some node's category names an inherited property. Otherwise the catalog has exactly the eight keys, each listing that category's kept parts in node order. |
| `Search.FilterParts` | src/App.jsx:386-389 | Every listed part matches by name or brand, ignoring case. Every matching part is listed, and nothing is added. |
| `Search.Matches` | src/App.jsx:386-389 | The name or brand test; the empty term matches every part. |
| `Search.EmptyTermKeepsAll` | src/App.jsx:386-389 | The filter keeps every part for the empty term. The page never filters with an empty term: it lists the catalog unfiltered then (src/App.jsx:383). |
| `Search.TermCaseIgnored` | src/App.jsx:386-389 | A term and its lower-cased form find the same parts. |
| `Search.SearchIn` | src/App.jsx:385-390 | Each listed slot is one of the categories and has a non-empty list of exactly its matching parts. Which slots are listed, and in what order, is stated by `Search.SearchListsMatchingSlotsInOrder`. |
| `Search.SearchCatalog` | src/App.jsx:383-390 | The search listing over the eight categories: each listed slot is a category with exactly its non-empty matches, and the listed slots are exactly the categories with a match, each once, in bill order. |
| `Search.SearchListsEveryMatchingSlot` | src/App.jsx:385-390 | Every slot with at least one matching part is listed. |
| `Search.SearchListsMatchingSlotsInOrder` | src/App.jsx:385-390 | The listed slots are exactly the slots of the given categories that have a match, each once, in the categories' order. |

## Left out

- The storefront GraphQL request, the JSON response, and the loading and error flags. These are network input/output and asynchronous. `Shopify.ParseShopifyData` returns `None` where the page's `catch` keeps the previous catalog.
- `parseFloat` of prices and `parseInt` of tag values. Prices are integers. `parseInt` is a parameter returning an optional integer, with `None` standing for NaN.
- `alert` messages. Each rejection instead carries a `Rejection` value holding the differing attributes.
- Currency formatting, the message text, `encodeURIComponent` and `window.open`. These are library and browser calls; only the quote lines' data is modelled.
- Drag-and-drop `dataTransfer` handling, `draggedItem`, `expandedCategory`, `searchTerm` state, and all rendering, CSS and animation.
- The `performance`, `variantId` and `modular` properties of parts. No decision reads them.
- React's update scheduling. Each handler is one atomic step on the current state, including the `build` that `updateQuantity` reads from its closure.
- `Text.Lower`: lowercases ASCII letters only. The full Unicode lowercase mapping of `toLowerCase` is not modelled.
- `Search.FilterParts`: states membership in both directions and the length bound, not that the original order is preserved.
- Totals are ghost functions. They sum over the build's key set, because a map has no iteration order in Dafny.
