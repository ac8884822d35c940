# Kaiten sync engine — a Dafny model

This project models the core of an ERP admin application that copies
Kaiten data into a Supabase database:

- **sync orchestration**: the dependency graph over ten entity kinds, the
  one-level dependency expansion, the depth-first topological sort, and the
  run loop that stops when a foundational kind fails. Each kind then goes
  through fetch-parameter derivation, per-kind transforms, the upsert in
  batches of 100, and its journal and metadata records;
- **the Kaiten client**: base-URL normalisation, `fetchAllPaginated`
  against a scripted page oracle, chunked parent-to-children discovery,
  the per-space member merge, and the canonical payload hash with
  `needsUpdate`;
- **the webhook endpoint**: body validation, routing on the event
  prefix, the per-entity handlers on an abstract table store
  (archive-instead-of-delete, delete-then-insert tag links), and the
  webhook journal row;
- **the documentation crawler**: link collection, `processHtml` from
  the texts and tables of a page to an endpoint record, section routing,
  the table-row cleanup, and the attribute line, search, summary and schema
  builders;
- **the admin pages**: the employee table's filters and toggles, and the
  sync panel's date validation, range check and heavy/light dispatch.

JavaScript values are a datatype (`JsValue.Js`). JavaScript's `||`
(falsiness) and `??` (null or undefined) are separate operators. A property
read on `null`/`undefined` is an error result wherever the code would
throw. Clocks, date conversion, the SHA-256 digest, URL parsing and every
HTTP or database answer are parameters of the model (function-typed
fields of an environment, or scripted response lists). The Supabase
tables are fields of one `Store.Database` object, which the
state-changing methods modify.

Module layout:

| file | module | models |
|---|---|---|
| `wrappers.dfy`, `js_value.dfy`, `strings.dfy`, `seqs.dfy` | `Wrappers`, `JsValue`, `Strings`, `Seqs` | shared values: options/results, JS values and operators, JS string functions, sequence helpers |
| `scheduler.dfy` | `Scheduler` | `DEPENDENCY_GRAPH`, `resolveDependencies`, `topologicalSort` |
| `transform.dfy` | `Transform` | `transformToDbFormat` |
| `store.dfy` | `Store` | the Supabase tables and the writes the code issues |
| `orchestrator.dfy` | `Orchestrator` | `sync`, `syncEntity`, `upsertToDatabase`, journal and metadata |
| `payload_hash.dfy` | `PayloadHash` | `calculatePayloadHash`, `needsUpdate` |
| `kaiten_client.dfy` | `KaitenClient` | `KAITEN_URL`, `fetchAllPaginated`, `getBoards`/`getColumns`/`getLanes`, `getAllSpaceMembers` |
| `webhook.dfy` | `Webhook` | `POST`, `handleWebhookEvent`, the handlers, `syncCardTags`, `logWebhook` |
| `doc_parser.dfy`, `doc_page.dfy`, `doc_links.dfy` | `DocParser`, `DocPage`, `DocLinks` | the crawler's string and record logic, `processHtml`, `collectLinks` |
| `employee_filters.dfy` | `EmployeeFilters` | the employees table's filters |
| `sync_controls.dfy` | `SyncControls` | the sync panel's date helpers and handlers |

Behaviours of the code that a reader might not expect, which the model
keeps:

- A card archived or deleted by webhook is only marked `archived`.
- A title such as "Responses Attributes" sends its tables to the request
  attributes but its extras to the response
  (`DocParser.ResponsesAttributesSplit`).
- `is_inactive` is read by the inactive filter although the declared row
  type has no such column. A missing value reads as `false`.
- The time-log range check compares the two dates as strings.
  `SyncControls.LessIsChronological` proves that this agrees with the
  calendar order on well-formed dates.
- The sync's array upsert writes NULL for a column an object of the batch
  leaves `undefined` (`Store.SentRowsValues`, `Transform.HashedRowColumns`). A
  webhook's single-object upsert leaves that column as it was stored.

## Model

| member | source | states |
|---|---|---|
| Scheduler.DepsLowerRank | lib/kaiten/sync-orchestrator.ts:28-39 | the dependency graph is acyclic: every dependency ranks below its dependent |
| Scheduler.GraphKeysComplete | lib/kaiten/sync-orchestrator.ts:28-39 | the graph's keys are the ten kinds, each once, with distinct names |
| Scheduler.ResolvedProperties | lib/kaiten/sync-orchestrator.ts:501-508 | the expansion holds every requested kind and every direct dependency of one, each once, with the requested kinds first in order of first occurrence |
| Scheduler.ResolveTimeLogs | lib/kaiten/sync-orchestrator.ts:501-508 | expansion is one level deep: `time_logs` gives `time_logs, cards, users` |
| Scheduler.ResolveDependencies | lib/kaiten/sync-orchestrator.ts:501-508 | the two `forEach` loops over the `Set` compute the expansion above |
| Scheduler.AddDeps | lib/kaiten/sync-orchestrator.ts:503-506 | the inner loop adds the dependencies missing from the set, at the end, in order |
| Scheduler.Visit | lib/kaiten/sync-orchestrator.ts:516-526 | `visit` marks the kind, visits its in-input dependencies first, pushes it, and keeps the sort invariant (marked-but-unpushed kinds unchanged, sorted only grows) |
| Scheduler.TopologicalSort | lib/kaiten/sync-orchestrator.ts:513-529 | the output is a permutation of the distinct input kinds, and every dependency that is in the input comes before its dependent |
| Orchestrator.DefaultRun | lib/kaiten/sync-orchestrator.ts:92-105 | with no options every kind of the graph is planned, dependencies are resolved, and the run is not incremental |
| Orchestrator.PlannedKinds | lib/kaiten/sync-orchestrator.ts:105-110 | a requested list is expanded by its direct dependencies unless expansion is switched off |
| Orchestrator.UpdatedSince | lib/kaiten/sync-orchestrator.ts:168-171 | `updatedSince` is set exactly when the run is incremental and the metadata has a truthy `last_incremental_sync_at` |
| Orchestrator.FromParamCases | lib/kaiten/sync-orchestrator.ts:182-193 | `from` is `timeLogsFrom` when given; else a date part of at most ten characters taken from the stamp; else absent; it fails only for a stamp that is neither a date nor a string |
| Orchestrator.FromUnparsedStamp | lib/kaiten/sync-orchestrator.ts:190-191 | a stamp that does not parse gives the text before its first `T` |
| Orchestrator.FetchParamsUpdatedSince | lib/kaiten/sync-orchestrator.ts:197-202 | kinds other than time logs carry `updated_since` exactly when `updatedSince` is set |
| Orchestrator.FetchParamsTimeLogs | lib/kaiten/sync-orchestrator.ts:175-196 | a time-log request carries `from` when set and `to` (given or today), and never `updated_since` |
| Orchestrator.RowsOfFirstError | lib/kaiten/sync-orchestrator.ts:278-280 | a failed `Promise.all` of transforms carries the error of the first record that fails |
| Orchestrator.RowsAreTransformed | lib/kaiten/sync-orchestrator.ts:278-280 | under the transform module's transform, the rows are each record's row in order |
| Orchestrator.FirstFailingUnique | lib/kaiten/sync-orchestrator.ts:284-292 | the first failing batch is the unique index before which every batch succeeds |
| Orchestrator.BatchOutcome | lib/kaiten/sync-orchestrator.ts:269-293 | the batch loop fails with the first failing batch's error; otherwise it reports the total and every row as processed and nothing created, updated or skipped |
| Orchestrator.UpsertOutcome | lib/kaiten/sync-orchestrator.ts:260-294 | `upsertToDatabase` fails on the first failing transform or batch; on success `records_processed` is the fetched count and the other counts are 0 |
| Orchestrator.UpsertedPrefix | lib/kaiten/sync-orchestrator.ts:283-292 | the rows that reach the table are a prefix of the transformed rows: all on success, else exactly the full batches before the failing one |
| Orchestrator.WrittenOthers | lib/kaiten/sync-orchestrator.ts:286-289 | the batch loop writes the kind's own table and no other |
| Orchestrator.WrittenAsOneArray | lib/kaiten/sync-orchestrator.ts:283-292 | when the rows share their keys, the accepted batches write what one array upsert of all the rows that reach the table writes |
| Orchestrator.TransformedSameColumns | lib/kaiten/sync-orchestrator.ts:278-280 | under the transform module's transform, every row of one kind has the base keys and that kind's own keys, so the rows share their keys |
| Orchestrator.BatchStep | lib/kaiten/sync-orchestrator.ts:284-285 | batch `b` is `rows[i..end]` with `end` the lesser of `i + 100` and the row count, and the later batches are the chunks of the rest |
| Orchestrator.UpsertToDatabase | lib/kaiten/sync-orchestrator.ts:260-294 | the method's outcome and written tables are `UpsertOutcome` and `TablesAfter` |
| Orchestrator.UpsertBatches | lib/kaiten/sync-orchestrator.ts:283-293 | the loop upserts consecutive batches of at most 100, and the first failing batch aborts the rest |
| Orchestrator.StopsAt | lib/kaiten/sync-orchestrator.ts:284-293 | when every batch before `b` passed and batch `b` fails or there is none, the outcome is that batch's error or success over all rows, and the tables are those after `b` batches |
| Orchestrator.JournalEntry | lib/kaiten/sync-orchestrator.ts:569-609 | a closed journal entry keeps kind and sync type and carries the final status, duration and completion time |
| Orchestrator.MetadataAfterRun | lib/kaiten/sync-orchestrator.ts:547-564 | after a successful run the kind's metadata is idle, without error, with the fetched total and the run's stamp, and the next incremental run reads that stamp |
| Orchestrator.MetadataKeepsOtherStamp | lib/kaiten/sync-orchestrator.ts:555-563 | a run writes its own stamp and keeps the other (a full run does not reset the incremental stamp) |
| Orchestrator.EntityOutcomeShape | lib/kaiten/sync-orchestrator.ts:157-235 | `syncEntity` throws only when the journal cannot be opened; otherwise it returns a success counting every fetched record, or a failure with zero counts and the failing step's error |
| Orchestrator.CreateSyncLog | lib/kaiten/sync-orchestrator.ts:569-577 | a started journal entry is appended and its id returned, or 0 when the insert fails |
| Orchestrator.CloseSyncLog | lib/kaiten/sync-orchestrator.ts:582-609 | the completion or failure patch is written over the entry unless the id is 0 |
| Orchestrator.FinishEntity | lib/kaiten/sync-orchestrator.ts:208-233 | on success the metadata is written and the entry completed; otherwise the entry is failed and metadata untouched |
| Orchestrator.TrySync | lib/kaiten/sync-orchestrator.ts:165-208 | the fetch and upsert of `syncEntity` change only the kind's own table |
| Orchestrator.SyncEntity | lib/kaiten/sync-orchestrator.ts:157-235 | its result, the kind's table, its metadata and its journal entry are as the specification functions say |
| Orchestrator.RunResultsShape | lib/kaiten/sync-orchestrator.ts:116-145 | results follow the sorted order, one per kind; they stop right after the first returned failure of spaces, boards, columns or lanes and nowhere else; a throw records a zeroed failure and the loop goes on |
| Orchestrator.RecordedResult | lib/kaiten/sync-orchestrator.ts:126-142 | a recorded result names its kind; a failure counts nothing; a throw has duration 0 |
| Orchestrator.EntityFrame | lib/kaiten/sync-orchestrator.ts:118-144 | syncing one kind leaves every other kind's table and metadata as they were |
| Orchestrator.EntityTablesOthers | lib/kaiten/sync-orchestrator.ts:157-235 | syncing one kind leaves the table of every other kind as it was |
| Orchestrator.AttemptTablesOthers | lib/kaiten/sync-orchestrator.ts:174-208 | the fetch and upsert of one kind write no table but its own |
| Orchestrator.TablesAfterOthers | lib/kaiten/sync-orchestrator.ts:260-293 | `upsertToDatabase` writes no table but the kind's own |
| Orchestrator.Sync | lib/kaiten/sync-orchestrator.ts:91-146 | `sync` runs every planned kind once, each after its dependencies; the results are `RunResults` of that order; each kind that ran holds the table and metadata its own sync leaves, every other kind (outside the order or after a stop) keeps its own, the journal gains exactly the entries of the kinds that ran, in order, and card tags are untouched |
| Orchestrator.RunOrder | lib/kaiten/sync-orchestrator.ts:118-144 | the loop records each kind's result and stops after a failed foundational kind; the kinds it reached hold what their own syncs leave, the kinds after a stop keep their tables and metadata, and the journal gains the reached kinds' entries in order |
| Orchestrator.SyncNext | lib/kaiten/sync-orchestrator.ts:118-126 | one more kind, not reached before, is synced with the metadata the run started from, and the store and journal are extended by it alone |
| Orchestrator.ResultsStep | lib/kaiten/sync-orchestrator.ts:125-130 | after pushing a result, a stop completes `RunResults`, and otherwise the rest of the order remains to run |
| Orchestrator.RunLogStep | lib/kaiten/sync-orchestrator.ts:118-126 | syncing one more kind appends that kind's journal entry and nothing else |
| Orchestrator.RanStep | lib/kaiten/sync-orchestrator.ts:118-144 | syncing a kind not yet reached extends the per-kind state of the run by that kind |
| Orchestrator.RanAtOwn | lib/kaiten/sync-orchestrator.ts:157-235 | the kind just synced holds the table and metadata its own sync leaves from the run's starting state |
| Orchestrator.RanAtOther | lib/kaiten/sync-orchestrator.ts:157-235 | a sync leaves what the run said of every other kind |
| Orchestrator.EntityKeepsOther | lib/kaiten/sync-orchestrator.ts:157-235 | syncing one kind leaves another kind's table and metadata as they were |
| Orchestrator.EntityTablesOwn | lib/kaiten/sync-orchestrator.ts:157-235 | a kind's table after its sync depends only on that table before it |
| Orchestrator.TablesAfterOwn | lib/kaiten/sync-orchestrator.ts:260-293 | `upsertToDatabase`'s write of a kind's own table depends only on that table before it |
| Orchestrator.EntityMetadataOwn | lib/kaiten/sync-orchestrator.ts:547-564 | a kind's metadata row after its sync depends only on that row before it |
| Transform.IsoOrNull | lib/kaiten/sync-orchestrator.ts:348 | a falsy date is `null`; a truthy one is its ISO conversion, whose error propagates |
| Transform.SpaceIdOf | lib/kaiten/sync-orchestrator.ts:313-316 | the card's truthy `space_id`, else the first board space's id, else `null`; it fails exactly when that first space is nullish |
| Transform.IdsFallback | lib/kaiten/sync-orchestrator.ts:319-326 | a present, non-empty flat id list is kept; otherwise the ids of the object array are used |
| Transform.MemberIds | lib/kaiten/sync-orchestrator.ts:329-331 | the member ids in order when `members` is an array, else `[]` |
| Transform.OwnerIdOf | lib/kaiten/sync-orchestrator.ts:342 | `owner_id`, else the first member's id, else `null` |
| Transform.CardFields | lib/kaiten/sync-orchestrator.ts:311-362 | the card's columns over the base; the first throwing column is the error |
| Transform.CardRow | lib/kaiten/sync-orchestrator.ts:313-361 | every card object carries the space, parents, children, members and owner fallbacks and the `false`/`0` defaults |
| Transform.CardFlagColumns | lib/kaiten/sync-orchestrator.ts:345-346 | `archived` and `blocked` default to `false` |
| Transform.CardSumColumns | lib/kaiten/sync-orchestrator.ts:349-350 | the time sums default to 0 |
| Transform.SpaceFields | lib/kaiten/sync-orchestrator.ts:364-374 | the space columns keep the base columns |
| Transform.BoardFields | lib/kaiten/sync-orchestrator.ts:375-386 | the board columns keep the base columns |
| Transform.SortOrder | lib/kaiten/sync-orchestrator.ts:393 | `sort_order ?? order ?? null`: a stored 0 is kept |
| Transform.ColumnFields | lib/kaiten/sync-orchestrator.ts:387-398 | the column columns keep the base columns |
| Transform.LaneFields | lib/kaiten/sync-orchestrator.ts:399-408 | the lane columns keep the base columns |
| Transform.UserFields | lib/kaiten/sync-orchestrator.ts:409-424 | the user columns keep the base columns |
| Transform.CardTypeFields | lib/kaiten/sync-orchestrator.ts:425-432 | the card type columns keep the base columns |
| Transform.TagFields | lib/kaiten/sync-orchestrator.ts:433-441 | the tag columns keep the base columns |
| Transform.PropertyDefinitionFields | lib/kaiten/sync-orchestrator.ts:442-450 | the property definition columns keep the base columns |
| Transform.SlimPayload | lib/kaiten/sync-orchestrator.ts:453-466 | the slimmed payload has none of the 11 nested keys and every other property of the record |
| Transform.CardIdOf | lib/kaiten/sync-orchestrator.ts:472 | `card_id ?? card?.id ?? null` |
| Transform.UserIdOf | lib/kaiten/sync-orchestrator.ts:473-478 | the user id chain; a falsy non-null `author` stops it |
| Transform.RoleIdOf | lib/kaiten/sync-orchestrator.ts:479-482 | `role_id ?? (role && role.id) ?? null` |
| Transform.GuardedIdDiffers | lib/kaiten/sync-orchestrator.ts:476-477 | `(o && o.id) ?? rest` differs from `o?.id ?? rest` exactly when `o` is falsy but not nullish and differs from `rest` |
| Transform.TimeLogRow | lib/kaiten/sync-orchestrator.ts:468-489 | every time-log object carries the values of the id, minutes and date `??` chains, and its `raw_payload` is the slimmed payload |
| Transform.KindFields | lib/kaiten/sync-orchestrator.ts:310-495 | each kind's columns keep the base columns; a time log's only change to them is that its `raw_payload` is the slimmed payload |
| Transform.TransformRow | lib/kaiten/sync-orchestrator.ts:300-309 | the row is the hashed row of the record's hash; a nullish record fails in the hash |
| Transform.HashedRowColumns | lib/kaiten/sync-orchestrator.ts:303-489 | every object of one kind has the same keys, whatever the record holds: the five base keys and the kind's own literal keys |
| Transform.CardColumnKeys | lib/kaiten/sync-orchestrator.ts:333-361 | the card literal adds its 26 keys to the base keys |
| Transform.TimeLogColumnKeys | lib/kaiten/sync-orchestrator.ts:468-489 | the time-log literal adds its 8 keys to the base keys, whose `raw_payload` it overrides |
| Transform.PlainColumnKeys | lib/kaiten/sync-orchestrator.ts:364-450 | each other kind's literal adds its own keys to the base keys |
| Transform.HashedRowIdentity | lib/kaiten/sync-orchestrator.ts:303-304 | an object has the record's `id` (possibly `undefined`) and a `uid` that is truthy or `null` |
| Transform.HashedRowStamps | lib/kaiten/sync-orchestrator.ts:305-307 | an object carries the transform time, the record's hash and the record (slimmed for a time log) |
| Store.RowOf | app/api/webhooks/kaiten/route.ts:104-135 | a single object sent as the request body has no column for an `undefined` property |
| Store.UpsertRow | app/api/webhooks/kaiten/route.ts:133-135 | the upsert of one object on its own: a new key is inserted; an existing row has the object's columns written over it and keeps its others; other rows are unchanged |
| Store.UpsertRowIdempotent | app/api/webhooks/kaiten/route.ts:133-135 | upserting the same object twice equals upserting it once |
| Store.UpsertAllAppend | lib/kaiten/sync-orchestrator.ts:284-292 | writing two lists of already-sent rows in turn equals writing their concatenation |
| Store.BatchColumnsListed | lib/kaiten/sync-orchestrator.ts:286-289 | the `columns` list of an array upsert is exactly the keys that some object of the array has |
| Store.SentRowsValues | lib/kaiten/sync-orchestrator.ts:286-289 | each object of an array upsert is written with every listed column: its own value where it is defined, NULL where the key is missing or `undefined` |
| Store.SameColumnsListed | lib/kaiten/sync-orchestrator.ts:286-289 | objects that all have the same keys make a `columns` list of exactly those keys |
| Store.SentRowsAppend | lib/kaiten/sync-orchestrator.ts:284-292 | objects that share their keys are sent alike in one array or split into two |
| Store.UpsertArrayAppend | lib/kaiten/sync-orchestrator.ts:284-292 | objects that share their keys: two array upserts in turn equal one array upsert of the concatenation |
| Store.UpsertBatches | lib/kaiten/sync-orchestrator.ts:284-292 | when every object has the same keys, upserting the batches one by one equals one array upsert of their concatenation |
| Store.BatchBoundaryMatters | lib/kaiten/sync-orchestrator.ts:286-289 | with objects whose keys differ, batching matters: a title-less card sent with a titled one has its stored title cleared, and sent alone keeps it |
| Store.SentTogether | lib/kaiten/sync-orchestrator.ts:286-289 | the title-less card sent in one array with a titled card gets `title` NULL |
| Store.SentApart | lib/kaiten/sync-orchestrator.ts:286-289 | the title-less card sent alone keeps its stored title |
| Store.UpsertAllKeys | lib/kaiten/sync-orchestrator.ts:286-289 | every upserted key is present afterwards and no other key is added |
| Store.UpdateWhere | app/api/webhooks/kaiten/route.ts:147-153 | the patch is written over the row with that key, if there is one |
| Store.Database.Upsert | lib/kaiten/sync-orchestrator.ts:286-289 | the named table becomes the array upsert of the objects, NULL filling the listed columns an object lacks or leaves `undefined`; every other table is unchanged |
| Store.Database.UpsertObject | app/api/webhooks/kaiten/route.ts:133-135 | the named table becomes the upsert of the one object; every other table is unchanged |
| Store.Database.Update | app/api/webhooks/kaiten/route.ts:147-153 | the named table becomes the update; every other table is unchanged |
| Store.Database.DeleteCardTags | app/api/webhooks/kaiten/route.ts:304 | exactly the card's links are removed |
| Store.Database.InsertCardTags | app/api/webhooks/kaiten/route.ts:313 | the links are appended |
| Store.Database.InsertLog | lib/kaiten/sync-orchestrator.ts:569-577 | the row is appended and its 1-based id returned |
| Store.Database.UpdateLog | lib/kaiten/sync-orchestrator.ts:582-609 | the patch is written over the entry with that id, if any |
| Store.Database.UpsertMetadata | lib/kaiten/sync-orchestrator.ts:561-563 | the metadata is upserted on `entity_type` |
| PayloadHash.SortStrings | lib/kaiten/client.ts:398 | `sort()` returns a sorted permutation of the keys |
| PayloadHash.StrictlySortedUnique | lib/kaiten/client.ts:398 | two strictly sorted lists with the same elements are equal, so the key list depends only on the key set |
| PayloadHash.TopKeys | lib/kaiten/client.ts:398 | `Object.keys` fails exactly on a nullish payload |
| PayloadHash.UnlistedPropertyDropped | lib/kaiten/client.ts:398 | a nested property whose name is not a top-level key is dropped from the serialisation |
| PayloadHash.MembersAgree | lib/kaiten/client.ts:398 | the serialised members depend only on the values the listed names look up |
| PayloadHash.Utf8Ascii | lib/kaiten/client.ts:399 | an ASCII text encodes to its own character codes |
| PayloadHash.ByteHex | lib/kaiten/client.ts:402 | each byte is two lowercase hex digits, high digit first |
| PayloadHash.HexOfBytes | lib/kaiten/client.ts:401-402 | the hex text has two lowercase hex characters per digest byte |
| PayloadHash.HexRoundTrip | lib/kaiten/client.ts:401-402 | decoding the hex text gives the digest bytes back |
| PayloadHash.CalculatePayloadHash | lib/kaiten/client.ts:397-403 | the hash fails exactly on a nullish payload; otherwise it is the lowercase hex of the digest of the UTF-8 canonical text |
| PayloadHash.HashIgnoresPropertyOrder | lib/kaiten/client.ts:398 | objects with the same names and values hash alike, whatever the property order |
| PayloadHash.ReorderedPayloadNeedsNoUpdate | lib/kaiten/client.ts:405-407 | reordering a parsed object's properties leaves the hash unchanged, so `needsUpdate` is false |
| KaitenClient.StripSuffix | lib/kaiten/client.ts:25-28 | one trailing suffix is removed when present, otherwise the text is unchanged |
| KaitenClient.NormalizeIsPrefix | lib/kaiten/client.ts:25-28 | the normalised URL is the configured one or a prefix of it |
| KaitenClient.NormalizeLeavesOthers | lib/kaiten/client.ts:25-28 | a URL with none of the three suffixes is unchanged |
| KaitenClient.NormalizeStripsApiRoot | lib/kaiten/client.ts:25-28 | a bare base URL followed by any form of the API root normalises to the base |
| KaitenClient.RequestParamsLookup | lib/kaiten/client.ts:115-123 | each request carries `limit`, `offset`, `updated_since` only when given, and every other option unchanged |
| KaitenClient.ExtractPage | lib/kaiten/client.ts:132-138 | the items are `items`, else `data`, else `time_logs`, else the response; a non-array is an empty page; a null response throws |
| KaitenClient.ExtractWrapped | lib/kaiten/client.ts:132-136 | `items`, `data` and `time_logs` arrays are read in that order of preference |
| KaitenClient.ExtractOther | lib/kaiten/client.ts:138 | an object without the three arrays, or a scalar, is an empty page |
| KaitenClient.PaginateStep | lib/kaiten/client.ts:142-155 | a failed, empty or short page ends the loop; a full page moves the offset by its length |
| KaitenClient.PaginateStops | lib/kaiten/client.ts:113-164 | one request per page until a page fails, is empty or is short; every earlier page was full |
| KaitenClient.PaginateOffsets | lib/kaiten/client.ts:107-147 | request `i` asks for the initial offset plus the items received before it |
| KaitenClient.PaginateResult | lib/kaiten/client.ts:106-167 | the result is every page's items concatenated in order, or the failing page's error |
| KaitenClient.PaginateFailure | lib/kaiten/client.ts:125-159 | the run fails exactly when its last request fails, and then with that request's error |
| KaitenClient.PaginateItems | lib/kaiten/client.ts:142-155 | a run that succeeds returns the items of every page it read, concatenated in order |
| KaitenClient.FetchPage | lib/kaiten/client.ts:126-138 | one request and the reading of its response give that page's items, or the request's error |
| KaitenClient.PaginateExample | lib/kaiten/client.ts:113-164 | pages of 100, 100 and 37 items under limit 100 give 237 items from three requests |
| KaitenClient.FetchAllPaginated | lib/kaiten/client.ts:95-168 | the loop returns `Paginate`'s items, requests and pauses (one pause between consecutive requests) |
| KaitenClient.Children | lib/kaiten/client.ts:189-195 | discovery fails only with a `TypeError` |
| KaitenClient.ChildrenFails | lib/kaiten/client.ts:189-195 | discovery fails exactly when a parent is nullish or a fulfilled response cannot be spread |
| KaitenClient.ChildrenOfArrays | lib/kaiten/client.ts:192-194 | rejected parents contribute nothing; fulfilled ones contribute their whole arrays |
| KaitenClient.DiscoverChildren | lib/kaiten/client.ts:186-196 | the chunk loop, five parents at a time, computes `Children` |
| KaitenClient.SettleChunk | lib/kaiten/client.ts:189-194 | one chunk either extends the children to the end of the chunk or fails as the whole discovery fails |
| KaitenClient.PushSettled | lib/kaiten/client.ts:192-194 | spreading the chunk's fulfilled responses after the children found so far gives the children of all parents up to the chunk's end |
| KaitenClient.GetBoards | lib/kaiten/client.ts:183-197 | the boards of the paginated spaces |
| KaitenClient.GetColumns | lib/kaiten/client.ts:207-219 | the columns of freshly discovered boards |
| KaitenClient.GetLanes | lib/kaiten/client.ts:225-237 | the lanes of freshly discovered boards |
| KaitenClient.MergeByIdIds | lib/kaiten/client.ts:355-359 | the merged users' ids are the distinct input ids in first-occurrence order |
| KaitenClient.MergeIdsDistinct | lib/kaiten/client.ts:355-359 | no merged id repeats and every input id appears |
| KaitenClient.MergeByIdValues | lib/kaiten/client.ts:355-359 | each merged user is the last record with its id |
| KaitenClient.InactiveReplacesActive | lib/kaiten/client.ts:356-357 | a later record with the same id replaces the earlier one in its place, so an inactive user read after the active list wins |
| KaitenClient.MergeSpaceUsers | lib/kaiten/client.ts:355-359 | the two `Map` loops compute `MergeSpec` |
| KaitenClient.PausesBetweenChunks | lib/kaiten/client.ts:384-386 | there is one pause between consecutive chunks of two spaces and none after the last |
| KaitenClient.MembersChunkOf | lib/kaiten/client.ts:340-381 | after the members of the earlier spaces, each space of the chunk follows in order with its merged users; a space whose requests fail is skipped |
| KaitenClient.SpaceChunk | lib/kaiten/client.ts:336-338 | a chunk holding a nullish space fails the whole call; otherwise the members extend to the chunk's end |
| KaitenClient.PushSpaceMembers | lib/kaiten/client.ts:375-381 | the members of one more space are pushed exactly when its requests and merge succeed |
| KaitenClient.FetchSpaceMembers | lib/kaiten/client.ts:341-370 | a space's two user requests, merged by id; nothing when either request fails |
| KaitenClient.GetAllSpaceMembers | lib/kaiten/client.ts:328-393 | fails exactly when the space list fails or holds a nullish space; otherwise each space in order with its merged users, failed spaces omitted, and one pause between consecutive chunks of two |
| Webhook.EventParts | app/api/webhooks/kaiten/route.ts:67-68 | `entity.action` splits into its entity and its action; without `.` there is no action |
| Webhook.EntityNamed | app/api/webhooks/kaiten/route.ts:71-87 | only card, board, space and user select a handler |
| Webhook.RecordRowErrors | app/api/webhooks/kaiten/route.ts:104-131 | a row fails exactly when a date does not convert or the payload cannot be hashed |
| Webhook.RecordedRows | app/api/webhooks/kaiten/route.ts:104-131 | with the handlers' row builder, every row a handler writes carries the stamps of a successfully hashed payload, and a card row the owner, flag, sum and `space_id` defaults |
| Webhook.RecordRowStamps | app/api/webhooks/kaiten/route.ts:104-131 | every row carries the id, a truthy-or-null `uid`, the event time as `kaiten_updated_at` and `synced_at`, the hash and the payload |
| Webhook.CardRowDefaults | app/api/webhooks/kaiten/route.ts:104-131 | every webhook card row carries the owner fallback, the `false` flags and the 0 time sums |
| Webhook.CardRowIgnoresBoardSpaces | app/api/webhooks/kaiten/route.ts:109 | the webhook card's `space_id` has no board fallback |
| Webhook.SyncedTagsOthers | app/api/webhooks/kaiten/route.ts:299-319 | the resync never touches another card's links |
| Webhook.SyncedTagsExact | app/api/webhooks/kaiten/route.ts:304-314 | when both steps succeed the card's links are exactly one `(card_id, tag.id)` per tag, in tag order |
| Webhook.SyncCardTags | app/api/webhooks/kaiten/route.ts:299-319 | delete then insert; each step's error is swallowed, and a failed delete does not stop the insert |
| Webhook.UpsertEvent | app/api/webhooks/kaiten/route.ts:100-142 | a create, update or move stores the row under its id and leaves other rows and tables as they were |
| Webhook.ArchiveEvent | app/api/webhooks/kaiten/route.ts:144-157 | archive or delete never removes a row, and a stored card gets `archived = true` and a new `synced_at` |
| Webhook.OtherActions | app/api/webhooks/kaiten/route.ts:159-160 | any other action writes nothing and succeeds |
| Webhook.HandlerErrors | app/api/webhooks/kaiten/route.ts:133-137 | a handler fails exactly when its row throws or its write errors, and then writes nothing |
| Webhook.WriteFails | app/api/webhooks/kaiten/route.ts:133-137 | a record that does not build or an upsert that errors fails the handler and changes neither tables nor tag links |
| Webhook.WriteSucceeds | app/api/webhooks/kaiten/route.ts:133-142 | a successful write answers `<Label> <id> <action>d` and upserts exactly the one row into the entity's table |
| Webhook.TagErrorsSwallowed | app/api/webhooks/kaiten/route.ts:315-318 | a handler's outcome does not depend on the tag resync failing |
| Webhook.HandleCardEvent | app/api/webhooks/kaiten/route.ts:96-162 | the card handler's outcome, tables and links are the specification's |
| Webhook.HandleRecordEvent | app/api/webhooks/kaiten/route.ts:167-266 | board, space and user handlers upsert only on create or update |
| Webhook.UnknownEntityIgnored | app/api/webhooks/kaiten/route.ts:84-86 | an unknown prefix succeeds with "Ignored" and writes nothing |
| Webhook.HandlerErrorCaught | app/api/webhooks/kaiten/route.ts:88-90 | a thrown error becomes `{success: false, error}` |
| Webhook.HandleWebhookEvent | app/api/webhooks/kaiten/route.ts:66-91 | routes on the prefix and turns a throw into a failure |
| Webhook.LogRowShape | app/api/webhooks/kaiten/route.ts:279-290 | entity type is the prefix, sync type `webhook`, status by success, one processed record, one updated only on success |
| Webhook.LogMetadataFields | app/api/webhooks/kaiten/route.ts:289 | the metadata names the event and the entity id |
| Webhook.LogWebhook | app/api/webhooks/kaiten/route.ts:271-294 | one journal row is appended unless the insert fails, which is swallowed |
| Webhook.InvalidPayload | app/api/webhooks/kaiten/route.ts:29-34 | a body without a truthy `event` or `data` gets 400 and nothing is written |
| Webhook.AcceptedRequest | app/api/webhooks/kaiten/route.ts:36-53 | a request reaching the handlers is answered 200 with the handler's `success` |
| Webhook.Post | app/api/webhooks/kaiten/route.ts:13-61 | validate, handle, journal, answer |
| DocLinks.CollectedDistinct | kaiten_api/kaiten_parser.js:102-115 | no address is collected twice |
| DocLinks.CollectedHas | kaiten_api/kaiten_parser.js:105-116 | every anchor passing the filters has its address collected |
| DocLinks.CollectedFirst | kaiten_api/kaiten_parser.js:112-115 | every collected link is the link of the first passing anchor with its address |
| DocLinks.PageLinks | kaiten_api/kaiten_parser.js:105-116 | links are on the documentation host, never login pages, with non-empty trimmed text, distinct, and complete |
| DocLinks.CollectLinks | kaiten_api/kaiten_parser.js:99-120 | the `forEach` loop with its `seen` set computes `Collected` |
| DocParser.OperationIdOfDocPage | kaiten_api/kaiten_parser.js:160-162 | a page under the base URL gets the rest of its URL with every `/` replaced by `.` |
| DocParser.PageTitle | kaiten_api/kaiten_parser.js:131-134 | the trimmed `h4`, else the trimmed `h1`, else "Unknown Endpoint", never empty |
| DocParser.PageMethodFound | kaiten_api/kaiten_parser.js:172-176 | a method is found exactly when some element's trimmed text, upper-cased, is GET/POST/PUT/DELETE/PATCH; the found one is a method name, and no earlier text is one when a later text is skipped |
| DocParser.PaddedMethod | kaiten_api/kaiten_parser.js:170-174 | the text is trimmed before the test, so ` get ` is found and stored as `GET` |
| DocParser.PageUrlFound | kaiten_api/kaiten_parser.js:178-182 | a URL is found exactly when some element's trimmed text starts with `http(s)://` and contains `api`; the URL is stored trimmed and the first one wins |
| DocParser.FindMethodAndUrl | kaiten_api/kaiten_parser.js:164-183 | the scan loop finds the first method and the first URL, stopping once both are found |
| DocParser.EndpointKey | kaiten_api/kaiten_parser.js:197 | the key is the method, a space, then the path |
| DocParser.GetPut | kaiten_api/kaiten_parser.js:509 | after `obj[key] = value` the key reads the new value and every other key its old one |
| DocParser.RowRecordCells | kaiten_api/kaiten_parser.js:471-510 | with distinct headers each cell reads back under its column's header |
| DocParser.TableObjectsRows | kaiten_api/kaiten_parser.js:512-531 | no headers gives no rows; every kept row has a filled value and escapes the `null` and `number` drop rules; every row that passes the rules is kept; at most one object per row |
| DocParser.TableToObjects | kaiten_api/kaiten_parser.js:461-535 | the row loop computes the cleaned objects in order; no headers gives no rows |
| DocParser.GroupedTables | kaiten_api/kaiten_parser.js:212-231 | every table under an interesting heading is filed under that heading |
| DocParser.GroupedEmpty | kaiten_api/kaiten_parser.js:233-236 | there is no section exactly when no table sits under an interesting heading |
| DocParser.GroupedInteresting | kaiten_api/kaiten_parser.js:201-221 | every section's title names an interesting section |
| DocParser.GroupedWell | kaiten_api/kaiten_parser.js:212-231 | the grouping has one entry per distinct heading, each with at least one table |
| DocParser.GroupSections | kaiten_api/kaiten_parser.js:210-231 | the `$('table').each` loop computes the grouping |
| DocParser.RouteDropsOnlyParameters | kaiten_api/kaiten_parser.js:253-263 | of the interesting sections, only path and query parameter sections are dropped |
| DocParser.ResponsesAttributesSplit | kaiten_api/kaiten_parser.js:255-270 | "Responses Attributes" sends its tables to the request attributes and its extras to the response |
| DocParser.RoutesObjects | kaiten_api/kaiten_parser.js:238-272 | an object is in a list exactly when a table of a section routed to that list yields it |
| DocParser.RoutesRequestExtras | kaiten_api/kaiten_parser.js:266-268 | an extra goes to the request exactly when a section whose title has "attributes" but not "response" has it |
| DocParser.RoutesResponseExtras | kaiten_api/kaiten_parser.js:269-271 | an extra goes to the response exactly when a section with "response" and "attributes" has it |
| DocParser.RouteSections | kaiten_api/kaiten_parser.js:238-272 | the nested routing loops compute `Routes` |
| DocParser.SchemaMatch | kaiten_api/kaiten_parser.js:319 | the match is at the leftmost position where a whitespace run then a `schema` word (any case, then a word boundary) starts, or -1 when there is none |
| DocParser.SchemaWordOnly | kaiten_api/kaiten_parser.js:319 | a type that is only the word `schema`, in any case, strips to the empty text |
| DocParser.AttrType | kaiten_api/kaiten_parser.js:317-319 | the type is never empty: `any` when the stripped type is empty, otherwise the stripped type |
| DocParser.EmptyTypeLine | kaiten_api/kaiten_parser.js:312-322 | a row whose type strips to nothing, with no description or constraints, is written as the name in backticks followed by `()` or `(, required)` |
| DocParser.CorrectedAttrOf | kaiten_api/kaiten_parser.js:312-322 | with the `any` fallback applied last the type is never empty, and the attribute equals the one as written whenever that type is not empty |
| DocParser.LineShape | kaiten_api/kaiten_parser.js:324-340 | the line starts with the bullet, the back-quoted name and the type; `, required` follows exactly when required |
| DocParser.LineBare | kaiten_api/kaiten_parser.js:335-338 | without description or constraints nothing follows the type part |
| DocParser.BuildSearchContent | kaiten_api/kaiten_parser.js:290-306 | the method pushes the parts of `SearchContent` |
| DocParser.SearchContentStarts | kaiten_api/kaiten_parser.js:293 | the search text starts with method, path and title |
| DocParser.SearchContentRequest | kaiten_api/kaiten_parser.js:295-298 | the request names follow a separator when there are request attributes |
| DocParser.SearchContentResponse | kaiten_api/kaiten_parser.js:300-303 | when there are response attributes, the string contains and ends with `. Response: ` and their names, so nothing follows the names |
| DocParser.FieldsChosen | kaiten_api/kaiten_parser.js:615-621 | at most ten fields, each of an attribute with both Name and Type, in order; all of them when ten or fewer |
| DocParser.BuildTextSummary | kaiten_api/kaiten_parser.js:605-646 | the method pushes the parts of `TextSummary` |
| DocParser.TextSummaryStarts | kaiten_api/kaiten_parser.js:608-612 | the summary opens with method, URL and title when both are known, else with the title |
| DocParser.ResponseDescription | kaiten_api/kaiten_parser.js:363-369 | the first response row's Description, else `Success` |
| DocParser.ResponseType | kaiten_api/kaiten_parser.js:364-368 | the first response row's Response type, else `Object` |
| DocParser.BuildSchemaMarkdown | kaiten_api/kaiten_parser.js:347-385 | the method pushes the lines of `SchemaLines` and joins them with newlines |
| DocParser.PushRequest | kaiten_api/kaiten_parser.js:355-361 | the request body block is written only when there are request attributes |
| DocParser.SchemaNoFields | kaiten_api/kaiten_parser.js:374-380 | the schema has the no-fields line exactly when the response has no attributes |
| DocPage.ProcessHtml | kaiten_api/kaiten_parser.js:125-285 | the method computes `PageEndpoint` |
| DocPage.PageEndpointNone | kaiten_api/kaiten_parser.js:186-188 | no endpoint exactly when no text is a method, or none an API URL, or no table sits under an interesting heading |
| DocPage.PageEndpointIdentity | kaiten_api/kaiten_parser.js:131-197 | the endpoint has a method name, an API URL, key = method + " " + path, a non-empty title, an operation id without `/`, and its text fields are the builders' results on itself |
| DocPage.BuiltStable | kaiten_api/kaiten_parser.js:280-282 | the builders read none of the fields they fill, so building again changes nothing |
| DocPage.PageEndpointLists | kaiten_api/kaiten_parser.js:238-264 | an object is in an endpoint list exactly when a section routed there yields it |
| DocPage.PageEndpointExtras | kaiten_api/kaiten_parser.js:266-276 | the extras are free of duplicates and are exactly those of the sections routed there |
| DocPage.PageEndpointSchema | kaiten_api/kaiten_parser.js:374-380 | the endpoint's schema has the no-fields line exactly when it has no response attributes |
| EmployeeFilters.UserSpaceIds | app/admin/employees/employees-table.tsx:76-78 | an id is listed exactly when a member row of that user has that space |
| EmployeeFilters.Toggle | app/admin/employees/employees-table.tsx:85-97 | the new set flips the id and keeps every other id |
| EmployeeFilters.ToggleSpace | app/admin/employees/employees-table.tsx:85-90 | only the space set changes, by flipping the id |
| EmployeeFilters.ToggleRole | app/admin/employees/employees-table.tsx:92-97 | only the role set changes, by flipping the id |
| EmployeeFilters.KeepsMemberIff | app/admin/employees/employees-table.tsx:42-58 | a member is kept exactly when each active filter lets it through |
| EmployeeFilters.RoleUnsetNeverExcluded | app/admin/employees/employees-table.tsx:44 | a member with a null or empty role id is never dropped by the role filter |
| EmployeeFilters.FilteredInOrder | app/admin/employees/employees-table.tsx:41-83 | both filters keep a subsequence of their rows, in order |
| EmployeeFilters.InactiveKeepsAll | app/admin/employees/employees-table.tsx:41-114 | with no active filter every row of both tables is kept |
| EmployeeFilters.ClearedKeepsAll | app/admin/employees/employees-table.tsx:99-114 | after `clearFilters` no filter is active and both tables show every row |
| EmployeeFilters.KeepsSummaryIff | app/admin/employees/employees-table.tsx:64-81 | a summary row is kept exactly when it matches the search and some member row of its user has a selected space |
| EmployeeFilters.SummaryIgnoresRoles | app/admin/employees/employees-table.tsx:63-83 | role and checkbox filters never affect the summary |
| EmployeeFilters.SearchIgnoresCase | app/admin/employees/employees-table.tsx:48-72 | upper- or lower-casing the query changes no filter result |
| EmployeeFilters.MatchesIgnoresCase | app/admin/employees/employees-table.tsx:51-53 | a row field matches a query whatever its own case |
| EmployeeFilters.ToggleFiltersTwice | app/admin/employees/employees-table.tsx:85-97 | toggling the same space or role twice restores the filters |
| SyncControls.NoCalendarCheck | app/admin/sync/sync-controls.tsx:32-34 | `2024-13-45` passes the format check |
| SyncControls.FormatLocalYmdValid | app/admin/sync/sync-controls.tsx:19-24 | for years 1000 to 9999 the output passes `isValidYmd` and writes back the year, the 1-based month and the day |
| SyncControls.FormatLocalYmdYears | app/admin/sync/sync-controls.tsx:19-24 | for any other year the output fails `isValidYmd` |
| SyncControls.LessIsChronological | app/admin/sync/sync-controls.tsx:157 | on valid dates the string order is the calendar order |
| SyncControls.RangeRejected | app/admin/sync/sync-controls.tsx:146-162 | no sync starts exactly when an end is malformed or `from > to`; then `syncing` is off and an error shown, the format error whenever an end is malformed |
| SyncControls.RangeChronological | app/admin/sync/sync-controls.tsx:151-171 | between valid dates the sync starts exactly when `from` is not after `to`; equal dates are allowed |
| SyncControls.QuickSyncDispatch | app/admin/sync/sync-controls.tsx:97-143 | a list with `cards` or `time_logs` goes to the background with `syncing` left on, whatever the reply; others are awaited, `syncing` goes off, and the reply's status decides error or results |

## Left out

- HTTP and Supabase calls are not modelled as I/O. Answers come from scripted response lists or from environment functions. Writes go to the `Store.Database` fields.
- Dates are parameters: `new Date`, `toISOString`, `Date.now`, `getFullYear`/`getMonth`/`getDate` and `addDays`. Durations are inputs.
- SHA-256 (`crypto.subtle.digest`) is a function parameter. Only the serialisation, the UTF-8 encoding and the hex encoding are modelled.
- `Promise.all`/`Promise.allSettled` are modelled as sequential loops that keep order. `setTimeout` pauses are counted, not timed.
- Console logging, the debug logger, and the markdown (`md`) output of `processHtml` are not modelled. Neither is `parseTableToMarkdown`.
- The crawler's DOM walks are inputs: the page's texts and tables, each table's nearest heading and the heading's extras. This covers cheerio/puppeteer, `findNearestHeader`, `collectSectionExtras` and the cell-text cleanup of `tableToObjects`.
- `decodeURIComponent(new URL(url).pathname)` is a function parameter. Its failure falls back to the URL.
- JSX rendering, `window.location.reload` and the timers' later status messages are not modelled. The server actions in `app/actions/` are only the launches the sync panel records.
- Case conversion covers ASCII and the basic Cyrillic letters. The rest of Unicode case folding is not modelled.
- Numbers are integers. Floating point is not modelled.
- EntityType is the ten kinds of the graph. Strings outside them, which a TypeScript cast could let in, are not modelled.
- DocLinks.PageLinks: states first-eligible, distinct and complete, but not the order of the links. The order is fixed by `Collected`, which `CollectLinks` computes.
- `SyncControls.QuickSync` models the panel state after the handler's setters and the launched action. React's batching of the setters is not modelled.
- Orchestrator.Sync: the `Supabase client not available` throw is not modelled. The store always exists in the model.
- Orchestrator.FinishEntity: the model always writes. The source awaits the metadata upsert and the closing journal update and ignores the `error` either returns (lib/kaiten/sync-orchestrator.ts:561-563, 582-608), so a rejected metadata write leaves the older stamp for the next incremental run. That failure is not modelled: `Store.Database.UpsertMetadata` and `Store.Database.UpdateLog` always succeed.
- Orchestrator.CompletedPatch: the store accepts every column on every table. The closing update spreads the stats into the journal row, `total` included, and the declared `sync_logs` row type has no `total` column. The model does not capture a database that rejects that update, because the tables' schemas are not part of the code modelled.
- Orchestrator.JournalEntry: states the completed entry with its `total` column, for the same reason.
- DocParser.AttrOf: does not promise a non-empty type, because the code writes an empty one for a `Type` of only `Schema` (see Findings). `DocParser.CorrectedAttrOf` is the corrected attribute.
- Store.KeyOf, Store.UpsertRow: a row without its key column is stored under `null`. The database would reject such a row, and that rejection is not modelled.
- Store.UpsertArray: an array holding two objects with the same `id` is written as the later object over the earlier one. Postgres rejects such a batch; in the model whether a batch fails is decided by the batch-outcome parameter, not by its contents.
- KaitenClient.MergeById: ids are compared as model values, structurally. `Map` compares its keys with SameValueZero, which compares object and array ids by reference, so two separately parsed users with the id `{"a":1}` stay two entries in the source and merge into one in the model. The map is declared with `number` keys (lib/kaiten/client.ts:355), and for integer ids the two comparisons agree.
- Strings.Less: orders strings by Unicode scalar values. JavaScript's `<` orders UTF-16 code units, and the two differ only when characters outside the Basic Multilingual Plane meet characters from U+E000 to U+FFFF.
- Error messages thrown by the engine are one fixed text each (`JsValue.TypeError`, `Orchestrator.SplitNotAFunction`, `Webhook.EventNotAString`). The engine's own texts also name the value or the property involved.

## Findings

| source | as written | input that shows it | evidently intended | confidence | as-written member | corrected member |
|---|---|---|---|---|---|---|
| kaiten_api/kaiten_parser.js:317-319 | the `any` fallback is applied before ` schema` is stripped, so a Type that is only the word `Schema` becomes an empty type and the line reads `` - `x` () `` | an attribute with `Type` = `"Schema"` | the type falls back to `any` whenever it ends up empty | not executed | DocParser.AttrTypeAsWrittenEmpty | DocParser.AttrType |
