# Expressia shipment tracking — a Dafny model

Expressia is a small parcel-shipping web application for Central America.
This project models its logic core:

- The administrator's timeline engine in `src/Admin.js`. It builds the five-milestone default timeline of an order and derives the coarse status from a timeline. It validates the chronology of an edited timeline, edits a draft field by field, and toggles completion with a backward cascade.
- The administrator's order-table controller in `src/Admin.js`. It fills in missing timelines, filters orders by search term and status, overrides a status, opens and closes the tracking editor, and commits or rejects a draft.
- The order store in `src/storage.js`. This is the browser's key-value storage holding the orders payload, a revision counter and a one-time seed flag, plus the storage-event key filter and the broadcast key.
- The customer panel in `src/Entrada.js`. It provides the tracking projection (timeline, progress, current location, estimated delivery), the tracking-number lookup, the order-form intake and the prepend of a new order.
- The CRUD store of `src/OrderContext.js`.

Modules, one concept each:

- `Wrappers` holds `Option`.
- `Strings` holds what JavaScript's string operations do here:
  - lexicographic `<` as `Less`, with its order laws;
  - `includes` as `Contains`;
  - `trim` with the ECMAScript white-space set;
  - ASCII `toLowerCase` and `toUpperCase`;
  - `parseInt` in base 10;
  - `String(n)`.
- `Orders` holds the records: `Status`, `Milestone`, `Order` and the history events.
- `TimelineEngine` holds the builder, the deriver and the draft edits.
- `Chronology` holds the validator, as a reference function and as the loop of the source.
- `Storage` holds the `OrderStore` class over a payload and a `map<string,string>`.
- `Admin` holds the load-time fill-in, the filter, the list transformations and the `OrdersTable` controller class.
- `Entrada` holds the customer projection, the lookup and the order intake.
- `OrderContext` holds the CRUD operations over open records.

Modelling choices:

- **Statuses.** A status is a datatype with one constructor per canonical value, plus `Other(name)` for any other stored string. A subset type keeps `Other` from holding a canonical name, so `StatusName` and `ParseStatus` are mutually inverse.
- **Dates.** Dates are the strings the source compares. The JavaScript date arithmetic `addDays` is a parameter of type `Calendar`.
- **Nondeterministic inputs.** Random order numbers, `Date.now()` ids, timestamps and today's date are parameters.
- **JSON.** The payload under `expressia_orders` is an abstract datatype: `Missing | Malformed | NonArray | Arr(orders)`. Writing an order list and reading it back is taken to give the same list.

Behaviour of the code worth knowing when reading the contracts:

- **Failure index.** The validator reports the 0-based index of the offending milestone, and its message names step index+1. A date regression at the third milestone is index 2 with the message for step 3 (`Chronology.ThirdStepDateRegression`).
- **Delete.** `OrderContext.DeleteOrder` models `deleteOrder` (src/OrderContext.js:31-33).
- **When validation runs.** `saveTracking` validates the draft only inside the `map` callback for the edited order (src/Admin.js:273-276). When that order is no longer in the list, nothing is validated: the unchanged list is saved and the editor closes (`Admin.OrdersTable.SaveTracking`).
- **Status override.** `updateStatus` leaves the timeline as it was (src/Admin.js:210-214). The status can then disagree with what the timeline derives until the next commit, which restores agreement (`Admin.CommittedOrdersAreSynced`).
- **Render cycle.** The effect on `orders` (src/Admin.js:190-195, `Admin.OrdersTable.OrdersChangedEffect`) runs after every change to a non-empty order list. Each controller method above states one step; the page then runs the effect as well.
  - A status change is saved twice, so the revision advances by two (`Admin.OrdersTable.UpdateStatusRendered`). A committed edit is saved twice in the same way (`Admin.OrdersTable.SaveTrackingRendered`). A rejected draft changes no order, so no effect runs.
  - Opening the editor on an order without a timeline changes `orders`, so that also leads to a save.
  - A reload on a storage event (src/Admin.js:166-169) is written back with a new revision and a new refresh timestamp. (`Admin.OrdersTable.OnStorageEventRendered`). The administrator's listener reloads on every storage event, whatever its key, so each such write makes another viewer reload. With two administrator viewers open, each reload therefore causes a write that makes the other viewer reload again.

## Model

| member | source | states |
|---|---|---|
| Strings.Less | src/Admin.js:254 | JavaScript's `<` on strings: lexicographic order, a proper prefix before its extensions |
| Strings.ToLower | src/Admin.js:203-205 | `toLowerCase`, letter by letter |
| Strings.Contains | src/Admin.js:205 | `includes`: the substring occurs at some position |
| Strings.ToUpper | src/Entrada.js:363 | `toUpperCase`, letter by letter, same length |
| Strings.Trim | src/Entrada.js:360 | `trim`: leading and trailing white space removed |
| Strings.IsBlank | src/Entrada.js:360 | `!trackingNumber.trim()`: the code trims to the empty string |
| Strings.ParseInt | src/storage.js:18 | `parseInt(x, 10)`: leading white space, an optional sign and the longest digit prefix; NaN (None) when there are no digits |
| Strings.IntToString | src/storage.js:19 | `String(n)` for an integer: optional minus sign and decimal digits |
| Strings.LessIrreflexive | src/Admin.js:254 | no date string is before itself, so an unchanged date is never a regression |
| Strings.LessAsymmetric | src/Admin.js:254 | the string order used by the validator is asymmetric |
| Strings.LessTransitive | src/Admin.js:254 | the string order used by the validator is transitive |
| Strings.LessTrichotomy | src/Admin.js:261 | any two date-time strings are ordered or equal |
| Strings.ContainsEmpty | src/Admin.js:203-206 | every string contains the empty search term |
| Strings.ToUpperIdempotent | src/Entrada.js:363 | upper-casing an upper-cased code changes nothing |
| Strings.IsBlankAllSpace | src/Entrada.js:360 | a code trims to empty exactly when every character is white space |
| Strings.ParseIntToString | src/storage.js:18-19 | `parseInt(String(n), 10)` reads back `n` for every integer, so the revision text round-trips |
| Orders.StatusNameOfParse | src/Admin.js:196-201 | every stored status string reads back as itself |
| Orders.ParseOfStatusName | src/Admin.js:196-201 | every status is written as a string that denotes it |
| TimelineEngine.BuildInitialTimeline | src/Admin.js:133-143 | exactly five milestones with the five canonical labels in order; dates at offsets 0,0,1,2,2 of the order date; the first always completed; stage k completed exactly as the status requires |
| TimelineEngine.StageCompleted | src/Admin.js:137-141 | the completed flag of stage k for a status: always the first, the second unless pendiente, the third for en-transito or entregado, the last two only for entregado |
| TimelineEngine.BuiltCompletion | src/Admin.js:137-141 | completed flags form a prefix: five for entregado, three for en-transito, one for pendiente, two for cancelado or any other status |
| TimelineEngine.FirstWithStage | src/Admin.js:147-149 | `find` by label: the first milestone carrying the label, none when no milestone has it |
| TimelineEngine.StageDone | src/Admin.js:147-150 | `find(...)?.completed`: the first milestone with the label exists and is completed |
| TimelineEngine.DeriveStatusFromTimeline | src/Admin.js:145-152 | never `Other`; cancelado iff the prior status is cancelado; otherwise entregado iff the first Entregado milestone is completed, en-transito iff not delivered and the first En Tránsito milestone is completed, else pendiente |
| TimelineEngine.DeriveIdempotent | src/Admin.js:145-152 | deriving again from a derived status gives the same status |
| TimelineEngine.BuilderDeriverAgree | src/Admin.js:133-152 | deriving from the built timeline gives back every canonical status, and pendiente for any other status |
| TimelineEngine.FirstWithStagePrefix | src/Admin.js:147-149 | milestones after the first one with a label do not change what `find` returns |
| TimelineEngine.DeriveIgnoresLaterMilestones | src/Admin.js:147-149 | once both labels occur, appending milestones does not change the derived status |
| TimelineEngine.DeriveWithoutNamedStages | src/Admin.js:147-151 | a missing label counts as not completed: with neither label completed the result is pendiente |
| TimelineEngine.UpdateDraftEvent | src/Admin.js:231-233 | same length; only the chosen field of milestone `index` takes the value; every other milestone and field is unchanged; an index out of range changes nothing |
| TimelineEngine.SetField | src/Admin.js:232 | `{ ...ev, [field]: value }` for the location, date or time field |
| TimelineEngine.ToggleCompleted | src/Admin.js:235-244 | same length; only `completed` ever changes; milestones before `index` unchanged; milestone `index` takes the value; later ones are cleared when the value is false and unchanged when it is true |
| TimelineEngine.FirstWithStageSameStages | src/Admin.js:147-149 | timelines with the same labels position by position find the same milestones |
| TimelineEngine.UpdateDraftEventKeepsStatus | src/Admin.js:231-233 | editing location, date or time never changes the derived status |
| TimelineEngine.ToggleOffKeepsPrefix | src/Admin.js:239-240 | clearing a milestone keeps the completed flags a prefix, because of the backward cascade |
| TimelineEngine.ToggleOnKeepsPrefix | src/Admin.js:237-238 | completing the milestone right after the completed prefix keeps the flags a prefix |
| Chronology.ValidateFrom | src/Admin.js:250-267 | from step n on: ok iff no later milestone regresses; a failure names the first regressing index, in range, with its message |
| Chronology.Validate | src/Admin.js:247-269 | ok iff no milestone regresses; on failure `0 <= index < \|timeline\|`, the index is the first violation, and the message names the kind and step index+1 |
| Chronology.ValidateTimelineChronology | src/Admin.js:247-269 | the `for` loop over `lastDate` and `lastDateTime` returns exactly `Validate` of its input |
| Chronology.MarksAfterPrefix | src/Admin.js:250-267 | the marks after the first m steps depend only on those steps |
| Chronology.FailurePrefixIsValid | src/Admin.js:250-263 | the milestones before a reported failure are themselves valid |
| Chronology.MessageWording | src/Admin.js:255-262 | the message contains "fecha" for a date regression and "hora" for a time regression, and the 1-based step number |
| Chronology.SkippedFields | src/Admin.js:253-259 | a date without a YYYY-MM-DD pattern is skipped entirely; a time without HH:MM is never compared or recorded |
| Chronology.NoDatesIsValid | src/Admin.js:253 | a timeline with no date-like field always validates |
| Chronology.EstimadoIsNoClock | src/Admin.js:140-142 | the placeholder time "Estimado" has no clock pattern |
| Chronology.BuiltClocks | src/Admin.js:258-260 | the default clock times are padded to seconds as the validator builds its date-time strings |
| Chronology.BuiltDateTimesIncrease | src/Admin.js:259-261 | the default times do not regress within a day or across the first two days |
| Chronology.BuiltTimelineIsChronological | src/Admin.js:133-269 | the default timeline validates whenever the calendar yields date strings of equal length that increase |
| Chronology.ThirdStepDateRegression | src/Admin.js:254-256 | a third date before the second fails with 0-based index 2 and the date message for step 3 |
| Chronology.HasDatePattern | src/Admin.js:253 | the unanchored test `/\d{4}-\d{2}-\d{2}/`: some substring has the date shape |
| Chronology.HasClockPattern | src/Admin.js:259 | the unanchored test `/\d{2}:\d{2}/`: some substring has the clock shape |
| Chronology.DateTime | src/Admin.js:260 | the date, "T", and the time, with ":00" added to a five-character time |
| Chronology.Message | src/Admin.js:255-262 | the failure message for a date or time regression at 0-based index i, naming step i+1 |
| Chronology.Violation | src/Admin.js:253-263 | one loop step's failure test against the running marks |
| Chronology.Advance | src/Admin.js:253-265 | one loop step's update of `lastDate` and `lastDateTime` |
| Chronology.NotBeforeTransitive | src/Admin.js:254 | "not before" is transitive under the string order |
| Chronology.MarksDominate | src/Admin.js:254-257 | after an accepted prefix, the date mark is not before any well-formed date in it |
| Chronology.ValidDatesNeverRegress | src/Admin.js:247-269 | in a timeline that validates, no well-formed date is before the well-formed date of an earlier milestone |
| Storage.WithTracking | src/storage.js:32 | each seed order is given a timeline by the builder when one is supplied, and is unchanged otherwise |
| Storage.SeedOrders | src/storage.js:27-31 | the three demo orders with their numbers, owners, routes, statuses, dates, costs and weights |
| Storage.RevisionText | src/storage.js:18 | `getItem(REV_KEY) \|\| '0'`: a missing or empty revision reads as "0" |
| Storage.RevisionOf | src/storage.js:18 | `parseInt(getItem(REV_KEY) \|\| '0', 10)`, None for NaN |
| Storage.NextRevision | src/storage.js:18-19 | the revision text a save writes: the parsed revision plus one, or "NaN" |
| Storage.ReloadsOn | src/storage.js:41 | the three keys whose storage events trigger a reload |
| Storage.NextRevisionIncrements | src/storage.js:17-19 | saving increments the stored revision by exactly one; a missing revision counts as 0; a revision that does not parse stays NaN |
| Storage.FirstRevisionIsOne | src/storage.js:18 | the first save into a store without a revision writes "1" |
| Storage.OrderStore.constructor | src/storage.js:2-4 | a store with the given payload and keys, the orders key held only as the payload |
| Storage.OrderStore.LoadOrders | src/storage.js:6-13 | the parsed array; no orders for a missing key, an empty value, malformed JSON or a non-array |
| Storage.OrderStore.Revision | src/storage.js:18 | the stored revision number, as a save reads it |
| Storage.OrderStore.Seeded | src/storage.js:26 | `getItem(SEED_FLAG) === '1'` |
| Storage.OrderStore.SaveOrders | src/storage.js:15-20 | stores the orders, so a load returns them; the revision is bumped once; nothing else changes |
| Storage.OrderStore.EnsureSeedOrders | src/storage.js:22-36 | existing orders are returned with no write; an empty store with the seed flag returns no orders with no write; otherwise the three seed orders are written with timelines, the flag is set and the revision bumped once |
| Storage.OrderStore.SeedTwice | src/storage.js:22-36 | a second call returns what the first one returned; together the two calls write nothing when orders or the flag exist, and otherwise write the seed, bump the revision and set the flag exactly once |
| Storage.OrderStore.OrdersChangeHandler | src/storage.js:40-44 | calls back with the loaded orders exactly for the refresh, revision and orders keys |
| Storage.OrderStore.BroadcastOrdersChange | src/storage.js:49-51 | writes only the refresh key; orders, revision and seed flag are unchanged |
| Admin.WithTimeline | src/Admin.js:159 | an order with a timeline is kept; an order without one gets the default timeline |
| Admin.FillMissingTimelines | src/Admin.js:159 | same length; every order has a timeline; orders that had one are unchanged; the others get the default timeline |
| Admin.FilledOrdersAreSynced | src/Admin.js:155-161 | a filled-in order's status is the one its timeline derives, for every canonical status |
| Admin.FillMissingIdempotent | src/Admin.js:159 | filling in twice is filling in once |
| Admin.MatchesSearch | src/Admin.js:203-205 | the lower-cased search occurs in the lower-cased order number or owner name |
| Admin.MatchesStatus | src/Admin.js:206 | the filter is "all" or equals the stored status string |
| Admin.OwnerName | src/Admin.js:204 | `o.owner?.name \|\| ''`: the owner's name, or empty without an owner |
| Admin.Shown | src/Admin.js:207 | an order is listed when it matches both the search and the status filter |
| Admin.Filtered | src/Admin.js:202-208 | an order is listed iff its lower-cased number or owner name contains the lower-cased search and the filter is "all" or its status |
| Admin.FilteredConcat | src/Admin.js:202 | filtering distributes over concatenation, so listed orders keep their stored order |
| Admin.FilteredEverything | src/Admin.js:203-206 | an empty search with status "all" lists every order |
| Admin.SetStatus | src/Admin.js:210-214 | same length; other ids unchanged; the matching order takes the new status and exactly one status entry, with timeline and other fields unchanged |
| Admin.CommitTracking | src/Admin.js:273-283 | same length; other ids unchanged; the edited order takes the derived status, the draft as timeline and exactly one tracking entry with that status and snapshot; other fields unchanged |
| Admin.CommittedOrdersAreSynced | src/Admin.js:281-282 | after a commit the order's status is the one its timeline derives |
| Admin.ReplaceById | src/Admin.js:223 | orders with the id are replaced, the others kept |
| Admin.RevisionAfterBroadcast | src/storage.js:17-19 | a save followed by a broadcast advances the revision by exactly one |
| Admin.OrdersTable.constructor | src/Admin.js:125-129 | an empty table with the editor closed |
| Admin.OrdersTable.Mount | src/Admin.js:155-161 | seeds the store once, then shows its orders with every timeline filled in; when it seeds, the store holds exactly the shown orders, with the revision bumped once and the flag set |
| Admin.OrdersTable.OnStorageEvent | src/Admin.js:164-169 | reloads the store's orders with timelines filled in; the editor is unchanged |
| Admin.OrdersTable.PersistOrders | src/Admin.js:178-185 | the list is replaced, saved with one revision bump and broadcast |
| Admin.OrdersTable.OrdersChangedEffect | src/Admin.js:190-195 | a non-empty list is saved and broadcast; an empty one writes nothing |
| Admin.OrdersTable.UpdateStatus | src/Admin.js:209-216 | the list becomes SetStatus of the old list and is persisted; the editor and the saving flag are unchanged |
| Admin.OrdersTable.UpdateStatusRendered | src/Admin.js:190-216 | a status change followed by the effect on `orders`: the list is SetStatus of the old one and saved, and the revision advances by two (by one for an empty list). The refresh key holds the last timestamp, and every other key, the seed flag included, is unchanged |
| Admin.OrdersTable.SaveTrackingRendered | src/Admin.js:190-288 | a save followed by the effect: a rejection changes nothing; a commit is saved and the revision advances by two (by one for an empty list), with every other key unchanged and the editor closed |
| Admin.OrdersTable.OnStorageEventRendered | src/Admin.js:164-195 | a reload followed by the effect: a non-empty reloaded list is written back: the revision key advances by one, the refresh key takes the timestamp, and no other key changes; an empty list writes nothing |
| Admin.OrdersTable.OpenTrackingEditor | src/Admin.js:218-227 | refused, with no change at all, iff the order is delivered; otherwise the draft is the order's timeline, built and stored first if missing |
| Admin.OrdersTable.CloseTrackingEditor | src/Admin.js:229 | the editor closes and the draft is discarded; orders unchanged |
| Admin.OrdersTable.UpdateDraftEvent | src/Admin.js:231-233 | the draft becomes the field edit of the old draft; nothing else changes |
| Admin.OrdersTable.ToggleCompleted | src/Admin.js:235-244 | the draft becomes the toggle of the old draft; nothing else changes |
| Admin.OrdersTable.SaveTracking | src/Admin.js:271-288 | rejected iff the edited order is listed and the draft fails validation, with index and message of the first violation, leaving orders, store and editor unchanged; otherwise the commit is saved with one revision bump and broadcast and the editor closes |
| Entrada.BuildTimeline | src/Entrada.js:319-329 | five milestones, second label "Preparando Envío", dates at offsets 0,0,1,2,2, completion by the same prefix rule as the administrator's timeline |
| Entrada.CustomerTimelineMatchesAdmin | src/Entrada.js:323-329 | the customer timeline equals the default administrator timeline except for the second label and the clock times |
| Entrada.Progress | src/Entrada.js:330-333 | 25 for pendiente, 60 for en-transito, 100 for entregado, 15 for any other status |
| Entrada.StatusLabel | src/Entrada.js:336 | display names for the three progress statuses; any other status shown as stored |
| Entrada.FirstIncomplete | src/Entrada.js:337 | the first milestone not completed, none when all are |
| Entrada.CurrentLocation | src/Entrada.js:337 | the first incomplete milestone's location, or the destination when all are completed or that location is empty |
| Entrada.Project | src/Entrada.js:334-341 | the tracking record: number, label, current location, estimated delivery two days after the order date, progress and timeline |
| Entrada.CurrentLocationByStatus | src/Entrada.js:337 | pending orders are at the origin, cancelled ones on the road, orders in transit or delivered at the destination |
| Entrada.FirstByNumber | src/Entrada.js:368 | the first order whose number equals the code exactly, none if there is none |
| Entrada.Track | src/Entrada.js:359-379 | blank input iff the code trims to empty; the upper-cased code equal to the demo code gives the demo; otherwise the first exact match is projected, or not found |
| Entrada.NonSpaceStartIsNotBlank | src/Entrada.js:360 | a code starting with a non-space character is never refused as blank |
| Entrada.ToUpperAppend | src/Entrada.js:363 | upper-casing distributes over concatenation |
| Entrada.DemoShadowsStoredOrder | src/Entrada.js:364-366 | the demo code shows the demo shipment whatever orders are stored |
| Entrada.DemoMock | src/Entrada.js:344-357 | the demo shipment record shown for EXP2024002 |
| Entrada.OrderNumberCase | src/Entrada.js:155 | a generated order number is upper-case and non-blank, and typing it in lower case finds the same number |
| Entrada.NotDemoNumber | src/Entrada.js:155 | a generated number is the demo code only when its random part is |
| Entrada.OwnerOf | src/Entrada.js:170-174 | the owner id is the user's id, or null when it is empty; the name is the trimmed full name, or the email when that is blank |
| Entrada.MissingRequired | src/Entrada.js:151 | origin, destination, weight or modalidad is empty |
| Entrada.HandleSubmit | src/Entrada.js:149-175 | no order iff origin, destination, weight or modalidad is empty; otherwise a pending order with the given id, number "EXP" + upper-cased draw, date, cost or 0, weight or 0, no timeline, empty history, and no owner exactly when no user is signed in |
| Entrada.HandleCreateOrder | src/Entrada.js:94-96 | the new order first, the existing ones after it in their order |
| Entrada.TrackFindsFirstOrder | src/Entrada.js:368 | the order just put first is found by its number |
| Entrada.CreatedOrderIsTrackable | src/Entrada.js:149-379 | a newly created order is found by its number, in upper or lower case, unless its random part is the demo's |
| OrderContext.AddOrder | src/OrderContext.js:25-27 | exactly one record appended at the end with the fresh id, replacing any id it had and keeping its other fields; earlier records unchanged |
| OrderContext.InitialOrders | src/OrderContext.js:4-13 | the one initial record, with id 1 |
| OrderContext.HasId | src/OrderContext.js:29 | `o.id === id`: the record has an id field equal to the value |
| OrderContext.UpdateOrder | src/OrderContext.js:28-30 | same length and order; other ids unchanged; matching records take the update's fields over their own |
| OrderContext.UpdateOrderIdempotent | src/OrderContext.js:28-30 | updating twice with the same fields is updating once, even when the update changes the id |
| OrderContext.UpdateAbsentIsIdentity | src/OrderContext.js:29 | updating an id no record has changes nothing |
| OrderContext.DeleteOrder | src/OrderContext.js:31-33 | no record with the id remains; a record is kept iff it does not have the id |
| OrderContext.DeleteOrderConcat | src/OrderContext.js:32 | deletion distributes over concatenation, so the survivors keep their order |
| OrderContext.DeleteAbsentIsIdentity | src/OrderContext.js:32 | deleting an id no record has changes nothing |
| OrderContext.DeleteOrderCounts | src/OrderContext.js:32 | every record without the id keeps its multiplicity, and records with it are gone |
| OrderContext.DeleteOrderIdempotent | src/OrderContext.js:32 | deleting twice is deleting once |

## Left out

- Rendering: the JSX screens, tabs, modals, badges and the metrics panel are UI only.
- TXT, PDF and Excel export: these rely on foreign libraries, the DOM and floating-point layout.
- `calculateCost`: it is floating-point arithmetic. The estimated cost is an input of `Entrada.HandleSubmit`.
- `parseFloat` of the weight field: this is floating-point parsing. The parsed weight is an input, with None standing for NaN.
- JavaScript `Date` arithmetic in both timeline builders: it has time-zone quirks, and an invalid date throws. It is the `Calendar` parameter.
- JSON encoding, and the exceptions of `localStorage` (quota, access): the payload is an abstract datatype, and a write is taken to succeed.
- Cross-viewer delivery of storage events, listener subscription and removal, and last-writer-wins races: only the key filter and the reload are modelled.
- The direct `localStorage` read and write of the customer panel (`src/Entrada.js:82-92`): this is I/O that bypasses the revision counter.
- React batching and the throw inside the state updater of `saveTracking`: the model takes the intended atomic abort, which changes no order and no storage and leaves the editor open.
- The 800 ms `setTimeout` and the alerts in `track`, and the toasts: only the decision is modelled.
- Strings.Less: compares by Unicode code point, while JavaScript compares UTF-16 code units. The two differ only for characters outside the Basic Multilingual Plane.
- Strings.ToLower: maps ASCII letters only, where JavaScript's `toLowerCase` uses full Unicode case mapping (á, Ñ and so on).
- Strings.ToUpper: has the same ASCII-only limit as `Strings.ToLower`.
- Strings.ParseIntToString: uses unbounded integers, whereas JavaScript numbers lose precision above 2^53.
- Reading the signed-in user from storage (`src/Entrada.js:157-158`): the user is an input of `Entrada.HandleSubmit`, with an empty field standing for an absent one.
- The remaining files of the application are UI and routing only and are not part of this model: `src/toast.js`, `src/Header.js`, `src/Principal.js`, `src/Login.js`, `src/OrderManager.js`, `src/App.js` and `src/components/ui/`.
