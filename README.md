# Event scheduling: server controllers and client cache, in Dafny

This project models the core of a multi-time-zone event scheduler.

- **Profiles** are users, each with a home time zone.
- **Events** have participants, a canonical time zone and bounds stored as UTC instants.
- Every creation and every update of an event appends an entry to a **change log**. The entry holds a before/after snapshot of the audited fields.

The model covers two sides:

- **The server controllers.**
  - `createEvent` validates the request, converts the local bounds to UTC, and appends one event and one log entry.
  - `updateEvent` merges the supplied fields in a fixed order, re-checks the range, and appends a full before/after entry.
  - `listEventsForProfile` and `getEventLogs` are projections.
  - `createProfile`, `listProfiles` and `updateProfile` manage profiles.
- **The client.**
  - The store keeps its profiles and events twice: as a list and as a map by `_id`. It makes optimistic writes, which are then confirmed or rolled back.
  - The event card covers the participant toggle, the participant label and the history dialog: name resolution, added/removed participants, the summary line and the changed-field rows.
  - The profile search and the start-ordered event list.

Modules:

- `Js`: optional fields, string truthiness and `||`.
- `Seqs`: `filter`, `findIndex`, replace-by-id, map-by-id, and the list/map agreement `Indexed`.
- `Strings`: `trim`, `toLowerCase`, `includes`, `join`, and decimal rendering.
- `Sorting`: `Array.prototype.sort`, as a stable insertion sort.
- `Time`: the two dayjs conversions, passed in as a `Converter` value.
- `Http`: reply statuses.
- `Storage`: records and the three tables.
- One module per core source file: `EventController`, `ProfileController`, `ClientStore`, `EventCard`, `UseProfiles`, `UseEvents`.

State the source updates in place is a class:

- `Storage.Db` holds the three JSON tables. The controllers read a table, change it and write it back whole.
- `ClientStore.Store` holds the zustand store. Each `set` call of the source is one method that reassigns its fields.

Both classes keep an invariant:

- `Db.Valid()`: every profile is named, every event ends after it starts, and every log entry has ordered bounds and names an existing event.
- `Store.Valid()`: each map holds exactly its list's ids, and maps each id to a list entry with that id.

Most state-changing methods prove `old(Valid()) ==> Valid()` outright. Three prove it only under a condition, because without it the code itself can break the index:

- `Store.UpdateProfile`: the id is cached and the server's record keeps that id.
- `Store.ConfirmTemp`: the temporary id is cached.
- `Store.PutEvent`: the id is cached and the record carries that id.

Inputs from outside the program are parameters:

- the results of `localToUTC`, `utcToTz`, `Date.parse` and `localeCompare`;
- generated ids and clock readings;
- the outcome of each server call on the client (`ApiOutcome`: `Success(record)` or `Failure`).

Notes on the code's behaviour, which the model follows:

- `createEvent` appends a creation entry to the log, with `previous` null and no author. So the log of an event updated twice has three entries, not two.
- Participants are added or removed by *resolved name*, not by id. Two different profiles with the same name therefore count as the same participant.
- Every validation failure is a 400 with a fixed message. There is no separate error category for an invalid time zone, and the range failure reads "Can't pick a date that has passed".
- `updateEvent` accepts an empty participant array, which `createEvent` rejects. The array is truthy, so it replaces the stored one.

## Model

| member | source | states |
|---|---|---|
| Storage.SnapshotOf | backend/src/controllers/eventController.js:107-113 | the audited five fields of an event; its range is ordered exactly when the event ends after it starts |
| Storage.Db.constructor | backend/src/utils/jsonStorage.js:17-28 | the three tables start empty, which satisfies the table invariant |
| EventController.CheckCreate | backend/src/controllers/eventController.js:7-22 | rejects in order: missing or empty profiles, then missing time zone, then a missing local time, then an end not after the start (both converted in the event zone); each rejection holds iff the earlier checks pass and its own fails; acceptance holds iff every check passes, and then yields exactly the two converted bounds, start < end |
| EventController.CreationEntry | backend/src/controllers/eventController.js:38-48 | the creation entry has no previous side, no author, the new event's id, and the title as supplied rather than defaulted |
| EventController.CreateEvent | backend/src/controllers/eventController.js:4-51 | a rejection returns 400 with CheckCreate's message and writes nothing; success returns 201 with the new event (title defaulting to "Event", converted bounds), appends exactly that event and one creation entry, leaves earlier entries and profiles as they were, and keeps the table invariant |
| EventController.Merge | backend/src/controllers/eventController.js:115-121 | a truthy time zone applies first; each truthy local time is converted in the resulting zone; a supplied participant array replaces the stored one; a truthy title replaces it; absent or falsy fields keep the stored value, so a zone-only update keeps both instants |
| EventController.UpdateEvent | backend/src/controllers/eventController.js:95-152 | an unknown id returns 404 and writes nothing; when the merged record does not end after it starts, returns 400 and writes nothing; otherwise it changes only the found index, to the merged record with a fresh update time, and appends one entry with full before/after snapshots and `changedBy` or null as author |
| EventController.ListEventsForProfile | backend/src/controllers/eventController.js:58-88 | 404 iff no profile has the id; otherwise one view per participating event, for that profile |
| EventController.ListEventsExactly | backend/src/controllers/eventController.js:61-79 | exactly the events listing the profile appear, each rendered in the query zone, which defaults to the profile's own |
| EventController.ListEventsInStoredOrder | backend/src/controllers/eventController.js:66 | the listing keeps stored order: it distributes over concatenating the table |
| EventController.ListEventsNoneIsEmpty | backend/src/controllers/eventController.js:62-66 | a known profile in no event gets an empty list, not an error |
| EventController.ResolveAuthor | backend/src/controllers/eventController.js:169-172 | the author is `{_id, name}` of the first profile with the recorded id, and null iff none matches or none was recorded |
| EventController.RenderSnapshot | backend/src/controllers/eventController.js:174-191 | start and end appear iff their instants are recorded, rendered in the zone; title, zone and participants pass through; a null side renders empty |
| EventController.GetEventLogs | backend/src/controllers/eventController.js:159-195 | one rendered entry per log entry of the event, with the same ids, in stored order; the zone defaults to "UTC" |
| EventController.GetEventLogsAppend | backend/src/controllers/eventController.js:164-165 | appending an entry for the event adds exactly its rendering at the end; an entry for another event changes nothing |
| EventController.GetEventLogsZoneOnlyRendersTimes | backend/src/controllers/eventController.js:162-191 | rendering in two zones yields the same authors, titles, zones and participants; only the rendered bounds can differ |
| ProfileController.CreateProfile | backend/src/controllers/profileController.js:3-19 | a falsy name returns 400 and writes nothing; otherwise returns 201 with one profile, appended last, whose zone defaults to "UTC"; other tables are untouched and the invariant is kept |
| ProfileController.ListProfilesSorted | backend/src/controllers/profileController.js:25-29 | the listing is a permutation of the stored profiles, ordered by name under a total preorder, with equally named profiles kept in stored order |
| ProfileController.Updated | backend/src/controllers/profileController.js:44-46 | zone and name are overwritten only by truthy values; id and creation time are kept; the update time is refreshed |
| ProfileController.UpdateProfile | backend/src/controllers/profileController.js:35-49 | an unknown id returns 404 and writes nothing; otherwise only the first profile with the id changes, to its Updated version, and the invariant is kept |
| Sorting.SortByIsSorted | backend/src/controllers/profileController.js:28 | the comparator sort's result is ordered by the comparator when it is a total preorder |
| Sorting.SortByIsStable | frontend/src/hooks/useEvents.js:12-16 | elements the comparator ranks equal keep their relative order |
| Seqs.ById | frontend/src/store/useStore.js:20 | the map built from a list has exactly the list's ids, each mapped to a list entry with that id |
| Seqs.IndexedReplace | frontend/src/store/useStore.js:77-81 | replacing an id's entries in the list and the map keeps them in agreement |
| Seqs.IndexedRemove | frontend/src/store/useStore.js:172-175 | removing an id from the list and the map keeps them in agreement |
| ClientStore.SelectedId | frontend/src/store/useStore.js:124 | the selected id, or null when nothing is selected or the id is empty |
| ClientStore.TempEvent | frontend/src/store/useStore.js:113-122 | the temporary event has the temporary id, the title defaulting to "Event", the zone defaulting to "UTC", and one participant object per payload id |
| ClientStore.ProfileObjectsRoundTrip | frontend/src/store/useStore.js:108-111 | resolving ids to profile objects through a map keyed by id, then normalising back, yields the ids in order |
| ClientStore.Patched | frontend/src/store/useStore.js:195-207 | each field the payload defines, even as "", overrides the cached one; the id is kept; the update time is set |
| ClientStore.PatchedParticipants | frontend/src/store/useStore.js:201-206 | the patched participants stand for exactly the payload's ids, in order |
| ClientStore.Patch | frontend/src/store/useStore.js:195-207 | the step-by-step field merge computes Patched |
| ClientStore.Store.constructor | frontend/src/store/useStore.js:5-9 | the store starts empty with nothing selected, in agreement |
| ClientStore.Store.SetEventsAndMap | frontend/src/store/useStore.js:19-22 | the list is replaced and the map rebuilt from it, so that the two agree |
| ClientStore.Store.CreateProfile | frontend/src/store/useStore.js:59-71 | on success the server's profile is appended to the list and added to the map, with nothing else changed; a failure changes nothing |
| ClientStore.Store.UpdateProfile | frontend/src/store/useStore.js:74-86 | on success every list entry with the id and the map entry become the server's record, which is selected, and its events are refetched when it has an id; a failure changes nothing |
| ClientStore.Store.InsertTemp | frontend/src/store/useStore.js:128-137 | the temporary event is put in front of the list and into the map, keeping them in agreement |
| ClientStore.Store.ConfirmTemp | frontend/src/store/useStore.js:147-160 | the temporary map entry gives way to the created record, which replaces the temporary entries in the list (and goes in front only when no entry has its id) |
| ClientStore.Store.DropTemp | frontend/src/store/useStore.js:170-176 | the temporary id leaves list and map; the other entries stay, in order |
| ClientStore.Store.CreateEvent | frontend/src/store/useStore.js:104-180 | inserts optimistically iff no profile is selected or the selected id is among the payload's; on success the created record replaces the temporary one in front; on failure the temporary one is removed; without the insert the cache is untouched and a refetch happens iff the created event includes the selected profile |
| ClientStore.Store.PutEvent | frontend/src/store/useStore.js:209-216 | a record is written under its id into the map and over the list entries with that id |
| ClientStore.Store.UpdateEvent | frontend/src/store/useStore.js:182-233 | an id absent from the cache causes no cache change; otherwise the record becomes its Patched version; a failure restores the previous record at the id in map and list; a success refetches for the selected profile |
| ClientStore.RollbackRestores | frontend/src/store/useStore.js:222-231 | when the list holds the event only as the map's record, the rollback gives back the list exactly |
| ClientStore.FailedCreateRestores | frontend/src/store/useStore.js:169-177 | under a fresh temporary id, a failed creation leaves list and map exactly as before |
| ClientStore.CreatedReplacesTemp | frontend/src/store/useStore.js:147-160 | under a fresh temporary id, a successful creation yields the created record in front of the untouched earlier list, with no entry under the temporary id |
| EventCard.Toggle | frontend/src/components/EventCard.jsx:77-84 | the id is selected afterwards iff it was not before; every other id keeps its state |
| EventCard.ToggleKeepsDistinct | frontend/src/components/EventCard.jsx:77-84 | the selection never holds an id twice |
| EventCard.ToggleTwice | frontend/src/components/EventCard.jsx:77-84 | toggling twice restores the selected set, and restores the selection exactly, order included, when the id was absent |
| EventCard.ParticipantLabel | frontend/src/components/EventCard.jsx:132-142 | the label starts with the normalised participant count and ends in "s" iff the count is not 1 |
| EventCard.ResolveName | frontend/src/components/EventCard.jsx:370-377 | an empty id resolves to "", a known id with a name to that name, an unknown id to itself; no other entry resolves to "" |
| EventCard.Names | frontend/src/components/EventCard.jsx:397-400 | one name per participant, a missing list counting as empty |
| EventCard.NamesIn | frontend/src/components/EventCard.jsx:397-400 | a name is listed iff some participant resolves to it |
| EventCard.Added | frontend/src/components/EventCard.jsx:402-404 | a name is added iff it is a current name and not a previous one |
| EventCard.Removed | frontend/src/components/EventCard.jsx:405-407 | a name is removed iff it is a previous name and not a current one |
| EventCard.ReorderAddsAndRemovesNone | frontend/src/components/EventCard.jsx:402-407 | when both sides have the same participants in any order, no one is added or removed |
| EventCard.CreationAddsEveryone | frontend/src/components/EventCard.jsx:397-404 | with no previous list, every current name is added, in order, and no one is removed |
| EventCard.SummaryParts | frontend/src/components/EventCard.jsx:409-412 | one part per non-empty list |
| EventCard.Summary | frontend/src/components/EventCard.jsx:409-427 | no summary iff both lists are empty; with one list the line is exactly "Removed: …" or "Added: …" (names joined by ", "); with both, "Removed: …" comes first and the parts are joined by " · " |
| EventCard.AddedKeepsCurrentOrder | frontend/src/components/EventCard.jsx:402-404 | added names keep the current list's order: splitting that list splits the added names at the same place |
| EventCard.RemovedKeepsPreviousOrder | frontend/src/components/EventCard.jsx:405-407 | removed names keep the previous list's order in the same way |
| EventCard.NoSummaryForSameParticipants | frontend/src/components/EventCard.jsx:402-427 | a change with the same participants shows no summary line |
| EventCard.ChangeFlags | frontend/src/components/EventCard.jsx:437-466 | identical sides show no field row |
| EventCard.ChangeFlagsOfUpdate | frontend/src/components/EventCard.jsx:437-466 | for an update entry, the title and zone rows appear iff those fields changed, and a bound that kept its instant shows no row |
| EventCard.ChangeFlagsOfCreation | frontend/src/components/EventCard.jsx:437-466 | for a creation entry, start and end rows always appear, and title and zone rows appear iff those fields were supplied |
| UseProfiles.FilteredProfiles | frontend/src/hooks/useProfiles.js:10-17 | a profile is kept iff it is listed and the trimmed, lower-cased query is empty or occurs in its lower-cased name; the result is no longer than the list |
| UseProfiles.MissingListIsEmpty | frontend/src/hooks/useProfiles.js:10 | a missing list filters to nothing |
| UseProfiles.BlankQueryKeepsAll | frontend/src/hooks/useProfiles.js:14-15 | a query that is blank once trimmed returns the list unchanged |
| UseProfiles.FilterKeepsOrder | frontend/src/hooks/useProfiles.js:16 | the result keeps list order: it distributes over concatenation |
| UseProfiles.CaseInsensitive | frontend/src/hooks/useProfiles.js:14-16 | lower-casing the query does not change the result |
| Strings.TrimLower | frontend/src/hooks/useProfiles.js:14 | trimming and lower-casing commute |
| UseEvents.SortedEvents | frontend/src/hooks/useEvents.js:9-18 | a missing list yields nothing; otherwise the result is a permutation of the events |
| UseEvents.ByStartIsTotalPreorder | frontend/src/hooks/useEvents.js:12-16 | the start-key comparator is total and transitive |
| UseEvents.SortedEventsOrdered | frontend/src/hooks/useEvents.js:11-16 | the result is a permutation, nondecreasing by parsed start (an unparseable or absent start counting as 0), with equal starts in their original order |
| UseEvents.Refresh | frontend/src/hooks/useEvents.js:20-23 | no fetch without a selected profile; otherwise a fetch for its id in the view zone |

## Left out

- backend/src/utils/time.js is not part of this model. `localToUTC` and `utcToTz` are arbitrary functions passed in as a `Time.Converter`. Nothing is claimed about time zones, daylight saving or round trips.
- Exceptions (an invalid zone or date inside dayjs, a file-system error) and the 500 replies they produce are not modelled. Neither are the `throw` rethrows on the client: a failed call is `ApiOutcome.Failure`, and the method reports it (`r == None`, `ok == false`).
- The persistence helpers in backend/src/utils/jsonStorage.js are not modelled as I/O. The three JSON files are sequence fields of `Storage.Db`. Generated ids and `new Date()` readings are parameters, and separate readings are separate parameters.
- Instants are unbounded integers. ISO-8601 text, and the `Date` comparison of re-parsed strings in `updateEvent`, are not modelled.
- Network, `await` and interleaving are not modelled. Each client method runs from start to finish against its own store, and the server reply is an input. The effect of a refetch (`fetchEventsForProfile`) is not modelled. The methods return the refetch they would issue (`refetch: Option<Id>`).
- `fetchProfiles`, `selectProfile`, `fetchEventsForProfile`, `getProfileById` and `getEventById` are not modelled, because each only replaces state with a response or reads a map.
- `convertToInput` and the rendering in EventCard.jsx are not modelled. They depend on `Date.parse` and the host's local time zone.
- Strings.Lower lower-cases only A-Z. Other Unicode case mappings of `toLowerCase` are not modelled. Trimming covers the ECMAScript white space and line terminators.
- Sorting.SortBy and UseEvents.SortedEvents model `Array.prototype.sort` as a function on a sequence, specified by what the language guarantees: a stable, ordered permutation. The engine's in-place algorithm is not modelled. The copy is fresh, and the store's list is not touched.
- ProfileController.ListProfiles: `localeCompare` is any total preorder `le` on names, as a parameter. Locale-specific collation is not modelled.
- UseEvents.StartKey: `Date.parse` is any `string -> Option<int>` parameter. `ta - tb` is read as the order `ta <= tb`, and floating-point values are not modelled.
- ClientStore.CachedEvent keeps only the fields the store reads or writes. Other fields of the server's records are not carried.
- ClientStore.Store.UpdateProfile: the agreement of list and map is kept only when the updated id was cached and the server's record keeps that id. The source does not guard either case.
- ClientStore.Store.UpdateEvent: the failure case restores the list only when the cache was in agreement (`old(Valid())`). Rollback is exact only when the list held the event as the map's record (RollbackRestores).
- EventCard.ResolveName: a `null` participant entry is not modelled. Entries are ids or profile objects, and an empty id stands for the falsy case.
- EventCard.ChangeFlags: the "—" shown for a missing side is not modelled, because it affects only rendering, not which rows appear.
