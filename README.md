# hubspot-mock-server: the in-memory CRM object store

This project models the core of a mock of the HubSpot CRM HTTP API: the
process-wide object store behind the request handlers in `src/app.ts`, and
what those handlers do to it.

- **State.** There are four object types: contacts, companies, deals and
  tickets. Each type has an id list in creation order and a JavaScript `Map`
  from numeric id to stored object. Each type also has an id counter that
  starts at 10000000. In the model this is the class `Crm.Store`, with the
  fields `data` and `newIds`. A JavaScript `Map` or plain object is
  `OrderedMaps.OMap`, a finite map that remembers the order in which its keys
  were first set.
- **Handlers.** The model covers these handlers, each as a method or function
  of `Crm.Store`:
  - `newId`;
  - create, list, read (with the `?associations=` expansion that writes a
    summary back into the stored object), partial update, archive;
  - the v4 association GET and PUT;
  - search, reset.

  Handlers that change the store are methods with `modifies` clauses. Each
  one states its whole new state in terms of pure functions of the old state:
  `Crm.Appended`, `Crm.Replaced` and `Crm.ArchiveIn`. The properties the
  server promises are proved about those functions.
- **Store invariant.** `Crm.StateValid` is kept by every handler. It says:
  - the id list mirrors the `Map`'s key order;
  - ids are strictly increasing, at least 10000000 and below the type's
    counter;
  - every property bag is well formed.
- **Pure parts.** These are datatypes and functions:
  - the singular-name switch (`Resources`);
  - webhook event construction and `appId` stamping (`Webhook`);
  - the object record and its association projections (`Entities`);
  - the property merge and change detection (`Properties`), each with the
    loop the handler runs proved equal to a specification function;
  - the filter engine (`Query`);
  - `split(",")`, `toString()` and `parseInt` (`Text`).
- **Outside influences.** The clock, the `pluralize` library and the
  configured webhook URL, app id and customer id are all parameters.
- **Errors.** HTTP 404 is a result variant (`NotFound`). A handler that
  dereferences `undefined` on a missing id (update, archive, association GET
  and PUT) throws before it changes anything: the model returns `None` or
  `false` there and leaves the state as it was. Read is the exception. Its
  expansion loop can throw at `item.associationTypes[0]` (src/app.ts:196)
  after it has already created the summary (190) and written the earlier
  names (192). `Crm.Store.Read` then returns `Crash` and keeps those writes
  in the stored object.

Reset (src/app.ts:368-380) empties every id list and `Map` and never touches
`newIds`. `Crm.Store.Reset` therefore keeps the counters, and ids keep
increasing across resets.

## Model

| member | source | states |
|---|---|---|
| Crm.Store.constructor | src/app.ts:63-89 | At process start every type has an empty id list and `Map`, every counter is 10000000, and the store invariant holds. |
| Crm.Store.NewId | src/app.ts:93-95 | Returns the type's counter and leaves it one higher. Other counters are untouched and the invariant is kept. |
| Crm.Store.Create | src/app.ts:135-157 | Takes the id from `newId`; that id is not a stored key and is above every stored id. Stores the object built from the defaults and the body under it. Appends the id to the end of the type's list. Emits exactly one `"<resources>.creation"` event for that id. Other types and counters are unchanged, and the invariant is kept. |
| Crm.AppendKeepsStateValid | src/app.ts:136-147 | Storing an object under the counter's value and moving the counter on keeps the store invariant. The id is fresh and above every stored id. |
| Crm.Store.IdsIncreasing | src/app.ts:84-95 | A type's ids are listed strictly increasing, hence distinct, between 10000000 and the counter. |
| Crm.AscendingPairs | src/app.ts:147 | An id list built by appending ever larger ids is increasing at every pair of positions. |
| Crm.CreateExtendsListing | src/app.ts:121-131 | After a create, the listing for the new object's flag is the old listing with the object at the end. The other listing is unchanged. |
| Crm.Store.List | src/app.ts:121-131 | An object is listed iff it is stored and its archived flag equals the flag the query asks for (live objects by default, under the corrected reading of `?archived=`; see Findings). The results keep the `Map`'s order. |
| Crm.Store.ListPartition | src/app.ts:121-131 | The default listing and the `archived=true` listing together hold every stored object exactly once. |
| Crm.Store.ListedByFlag | src/app.ts:126 | A stored object is in the listing for its own flag and not in the other one, so an archived object leaves the default listing. |
| Crm.StoredId | src/app.ts:172 | The path id names a stored object iff `parseInt` gives a number and that number is a key of the type's `Map`. |
| Crm.Store.Read | src/app.ts:170-207 | Not found when the path id does not parse, is not stored, or the stored flag differs from the requested one; nothing changes then. Without `associations`, returns the stored object unchanged. With it, the stored object is replaced by the result of the expansion loop. The read returns that object, unless the loop threw: then it returns `Crash`, and the summary writes made before the throw stay stored. The requested flag is the corrected reading of `?archived=` (see Findings). |
| Entities.ExpandLoop | src/app.ts:185-202 | The loop over the comma-separated names computes exactly `Expand`, stopping at the first throw. |
| Entities.Expand | src/app.ts:185-202 | The expansion changes nothing in the object but its `associations` summary. |
| Entities.ExpandFails | src/app.ts:193-198 | The expansion throws iff some requested name leads to a stored record with no association descriptor. |
| Entities.ExpandCreatesSummary | src/app.ts:188-191 | Afterwards the summary exists iff it existed before or some requested name has a non-empty record list. |
| Entities.ExpandWrites | src/app.ts:187-200 | After an expansion that did not throw: every requested name with records maps, under its pluralised key, to `{id: toObjectId, type: first descriptor's category}` of each record. Every other summary key keeps its old value. |
| Entities.ExpandKeepsKey | src/app.ts:186-201 | A summary key keeps its value when every later write to it stores the same value. |
| Entities.ExpandedView | src/app.ts:193-198 | Defined iff every record has a descriptor. If so, it has one entry per record, in order, holding the record's target id and its first descriptor's category. |
| Entities.MakeEntity | src/app.ts:139-145 | The new object has the body's properties. It is archived only when the body says so. `createdAt == updatedAt ==` the timestamp unless the body overrides one. Its `id` string parses back to the numeric key unless the body overrides it. It has no associations. |
| Text.ParseIntOfNatToString | src/app.ts:140 | `parseInt(id.toString())` is `id` for every non-negative id. |
| Text.ParseInt | src/app.ts:172 | `NaN` (`None`) exactly when no digit follows the optional sign. |
| Text.JoinSplit | src/app.ts:186 | `split(",")` loses nothing: joining the pieces with commas gives back the query string. |
| Text.SplitPieces | src/app.ts:186 | No piece contains a comma, and there is one more piece than there are commas. |
| Crm.Store.Update | src/app.ts:211-236 | Missing id: throws and changes nothing. Otherwise the object's bag becomes the merge of the old bag and the payload, and nothing else in the store changes. The events are one `"<singular>.propertyChange"` per changed key, in the new bag's key order. |
| Properties.Merge | src/app.ts:216-219 | The loop's result is a well-formed bag whose values are the old ones overridden by the payload's. It equals `Merged`: old keys first, then the payload's new keys in payload order. |
| Properties.MergeSemantics | src/app.ts:216-219 | Every payload key gets its payload value. Every other key is present and valued as before. The old keys keep their order at the front. |
| Properties.MergedValid | src/app.ts:216-219 | Merging two well-formed bags gives a well-formed bag, with no duplicate keys. |
| Properties.PropertyChangeEvents | src/app.ts:221-231 | The notification loop yields exactly one event per key of the new bag whose value differs from the old one, in that key order. |
| Properties.UpdateReportsChanges | src/app.ts:222-230 | A key is reported iff the payload sets it and its old value was absent or different. Each key is reported at most once. |
| Properties.ChangeEvents | src/app.ts:224-229 | Event i is the `"<singular>.propertyChange"` event for the i-th changed key, with the portal id and object id, and there are no other events. |
| Crm.Store.Archive | src/app.ts:238-243 | Missing id: throws and changes nothing. Otherwise the store becomes `ArchiveIn` of the old store. No event is emitted and the invariant is kept. |
| Crm.ArchiveIn | src/app.ts:239 | Only the object's archived flag changes, to `true`. The object stays in the `Map` and the id list, and every other object and type is as it was. |
| Crm.ArchiveIdempotent | src/app.ts:239 | Archiving twice equals archiving once. |
| Crm.Store.Associations | src/app.ts:245-266 | Missing id: throws. Otherwise one compact view per stored record under the pluralised type, in append order, or none. Each view gives back its record exactly. |
| Entities.Compact | src/app.ts:250-259 | The compact view has the record's target and one `{category, typeId}` per descriptor, in order. |
| Entities.CompactRoundTrip | src/app.ts:250-259 | The compact view loses nothing: the record can be rebuilt from it. |
| Crm.Store.Associate | src/app.ts:268-290 | Missing id: throws and changes nothing. Otherwise it appends exactly one record under the pluralised type, echoes the raw target type, and keeps the invariant. A GET after the PUT returns the old listing plus the new record's view. |
| Entities.Link | src/app.ts:272-278 | The PUT's write appends the record last under its key, with no deduplication. Other keys' records and the rest of the object are unchanged. |
| Entities.LinkThenList | src/app.ts:245-278 | The listing after a PUT is the listing before it with the new record's compact view at the end. |
| Crm.Store.Search | src/app.ts:292-323 | `total` is the number of results. The results are the type's objects, archived ones included, that match the filters, in `Map` order. |
| Query.Search | src/app.ts:297-314 | The nested loops select exactly the objects that `Matching` selects. |
| Query.SearchResults | src/app.ts:297-314 | An object is found iff it is stored and some group has every `EQ` filter matching. Results are an order-preserving subsequence of the store. |
| Query.NoGroupsMatchNothing | src/app.ts:299-310 | With no filter groups, nothing is found. |
| Query.EmptyGroupMatchesAll | src/app.ts:300-309 | A group without filters makes every object match, in store order. |
| Query.OnlyEqConstrains | src/app.ts:303-307 | Dropping every non-`EQ` filter changes no verdict. |
| Query.DisjunctionExample | src/app.ts:299-310 | For two single-filter groups on `name`, an object matches iff its name is one of the two values. |
| Crm.Store.Reset | src/app.ts:368-380 | Every type's id list and `Map` are emptied. The counters are not rewound, and the invariant is kept. |
| Resources.GetResourceName | src/app.ts:97-109 | Fails with `"NotImplemented"` iff the path segment is not one of the four types. Otherwise gives a non-empty singular name, shorter than the path name, whose letters before its last one begin the path name. |
| Resources.ParseResource | src/app.ts:123 | The path segment selects a type iff it is that type's plural path name. |
| Resources.NamesAreDistinct | src/app.ts:97-109 | Every type has a singular name, and distinct types have distinct plural and singular names. |
| Webhook.Creation | src/app.ts:148-154 | The creation event is `"<resources>.creation"` for the new id, with no property name. |
| Webhook.PropertyChange | src/app.ts:224-229 | The change event is `"<singular>.propertyChange"` for the object id and the property name. |
| Webhook.Send | src/app.ts:45-61 | Nothing is sent without a configured URL. Otherwise the batch is the same events, in order, each stamped with the app id and otherwise unchanged. |
| Webhook.StampKeepsEvents | src/app.ts:48-53 | Stamping keeps length and order and changes only `appId`. |
| OrderedMaps.Put | src/app.ts:146 | `Map.set` keeps the map well formed. A new key goes last and an existing key keeps its place. |
| OrderedMaps.Values | src/app.ts:124 | `[...set.values()]` lists one value per key, in key order. |
| OrderedMaps.PutNewValues | src/app.ts:146 | A newly set key's value is enumerated last. |
| Requests.ArchivedFlag | src/app.ts:118-122 | The `archived` query parameter asks for archived objects iff it is `"true"`. |
| Requests.ArchivedAsWritten | src/app.ts:122 | `!!(query ?? false)` on the raw query string is true iff the parameter is present and non-empty. |
| Requests.ArchivedFalseDiscrepancy | src/app.ts:122 | `?archived=false` asks for archived objects as written, and for live ones as intended. |
| Requests.ArchivedFlagAgreesOnTrueAndAbsent | src/app.test.ts:123 | Both readings agree on what the tests send: no parameter, and `archived=true`. |

## Left out

- HTTP transport, routing, body parsing, logging, response content types and status codes (src/app.ts:40-43, src/index.ts): responses are result values.
- The axios POST in `webhook.send` (src/app.ts:54-58) and its failure modes: network I/O. `Webhook.Send` returns the batch that would be posted. Create and Update return the events before stamping.
- `moment()` (src/app.ts:138) reads the wall clock: the timestamp is a parameter of `Crm.Store.Create`.
- `pluralize` is a foreign library: it is a parameter of type `string -> string`.
- Crm.Store.List: uses the corrected reading of `?archived=` (see Findings): `?archived=false` lists live objects here, while the code as written lists archived ones (src/app.ts:122,126). `Requests.ArchivedAsWritten` gives the as-written reading.
- Crm.Store.Read: uses the same corrected reading of `?archived=` (see Findings): with `?archived=false` an archived object is not found here, while the code as written returns it (src/app.ts:171,179).
- Crm.Store.Read: does not model a pluralised name that collides with a field the object already has (`id`, `properties`, `associations`, ...), because association records are kept apart from the other fields.
- Crm.Store.Associations: does not model the same key collision. For `to_object_type` `property` the code reads the property bag as a record list and throws at `related.map` (src/app.ts:246-250). The same happens for `association` once a read has written the summary. The model returns the stored records, or none.
- Crm.Store.Associate: does not model the same key collision. It also takes the target id as a number, so a non-numeric `object_id` (which stores `NaN`) is not modelled.
- Crm.Store.Update, Crm.Store.Archive, Crm.Store.Associate, Crm.Store.Associations: take the path id as a number. A path id that does not parse behaves like an absent id in these handlers (the handler throws), and that case is the modelled `Crash`/`None`/`false`.
- Crm.Store.NewId: ids are unbounded integers here. The program's counters are JavaScript numbers, and `newIds[r]++` (src/app.ts:94) stops increasing at 2^53. From then on a create would reuse an id: it would overwrite the stored object and list the id twice. Crm.Store.IdsIncreasing and Crm.Store.Create's freshness hold only below that bound.
- Crm.Store.Create: covers bodies that carry `properties` and may override `id`, `createdAt`, `updatedAt` and `archived`. Other extra body fields, and fields of other types, are not modelled.
- Crm.Store.Update: requires a payload with `properties`; `Object.keys(undefined)` would throw. `updatedAt` is not refreshed, as in the code.
- Crm.Store.Search: requires `filterGroups` to be present; a body without it throws in the code.
- Property values are strings. Non-string JSON values, and the enumeration of integer-like keys of a plain object before other keys, are not modelled.
- Text.ParseInt: does not model leading whitespace or the `0x` prefix that `parseInt` accepts.
- Request paths naming a type other than the four: the handlers index `data` with it and throw, and the model's handlers take a `ResourceType`.
- Array-valued query parameters (`?archived=a&archived=b`) are not modelled.
- The OAuth token, authorize and access-token endpoints and `/ping` (src/app.ts:325-366): they return fixed payloads and touch no state.
- The form-submission endpoint exercised in src/app.test.ts:294-392: src/app.ts has no handler for it.
- src/index.ts (process start-up) is not part of this model.
- Concurrency across the `await webhook.send` suspension: each handler is one atomic step.

## Findings

| source | as written | input that shows it | evidently intended | confidence | as-written member | corrected member |
|---|---|---|---|---|---|---|
| src/app.ts:122 | `req.query.archived ?? false` followed by `!!archived` tests the truthiness of the raw query string. | `GET /crm/v3/objects/companies?archived=false` lists only the archived companies, because `"false"` is a non-empty string. | The query's declared type is `archived?: boolean`: only `archived=true` should select archived objects. | medium, not executed | Requests.ArchivedAsWritten, Requests.ArchivedFalseDiscrepancy | Requests.ArchivedFlag |
