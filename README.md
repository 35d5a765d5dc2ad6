# NetBox topology mirror — a Dafny model

The application mirrors a NetBox inventory into a local database and serves it
to a topology-drawing frontend. A reconciliation run (`sync_from_netbox`) does
these steps in order:

- announces itself with `sync_started`;
- deletes the mirrored devices, connections and regions, and commits;
- fetches devices, then cables, then sites from NetBox;
- normalises each record and stores it, emitting `device_added`,
  `connection_added` or `region_added` for each item stored;
- lays the sites out as a row of regions on the canvas;
- ends with `sync_completed`.

Around that run sit several other parts:

- a small store layer: devices, positions and regions are upserted by key;
  connections are only ever inserted, under surrogate keys;
- an in-process event bus with `subscribe`/`emit`;
- a region service;
- the web layer:
  - the websocket client set and its relay;
  - the `netbox_updated` broadcast after a sync;
  - the positions map, read and written by the frontend;
  - the topology view;
  - the region endpoints.

The model has these modules:

- `Models` (models.py): rows as datatypes. Key and uniqueness rules are
  predicates over tables kept as maps from key to row. Region name and
  geometry are non-optional fields.
- `Netbox`: the upstream JSON records that the run reads. A member that may be
  left out is an `Option`. The nested objects the run descends into
  (`object`, `device`) may also be JSON null, so they are a three-valued
  `Member`. Names and ids that are JSON null are not represented (see
  "Left out"). A fetch is an input that either fails or returns an optional
  `results` list.
- `Steps`: a ghost `Journal` shared by the store, the event bus and the
  websocket hub. Every row write, bulk delete and commit of the store, every
  emit of the bus and every frame the `netbox_updated` broadcast sends
  appends its own step. The run adds one step per fetch request. Orderings
  between writes, emits and sends are stated over this journal.
- `Events` (events.py): the registry and `emit`. `EventBus` is a class that
  records every handler call and, as a ghost log, every emitted event. A
  handler is reduced to whether it raises.
- `Crud` (crud.py): pure table functions, and a `Store` class whose methods
  reassign its tables.
- `NetboxSync` (netbox_sync.py): the normalisers as functions and the run as
  methods with loops. Each loop is proved against these specification
  functions:
  - `SyncTrace`: every step the run journals (emit, clear, commit, request,
    row written);
  - `SyncEvents`;
  - the tables a run leaves behind: `SyncedDevices`, `SyncedConnections`,
    `SyncedRegions`.
- `SyncProperties` and `SyncTables`: what those specification functions
  promise. This covers order, skipping, layout, last-wins keys, and the
  tables after a failed fetch.
- `RegionService` (services/regions.py) and `Api` (main.py).

A commit is a snapshot point. When an exception leaves an endpoint before its
commit, the session is closed without committing, so its uncommitted writes
are discarded. The model states this wherever the source can raise between a
write and a commit.

## Model

| member | source | states |
|---|---|---|
| Models.InsertedRegion | app/models.py:40-49 | A region inserted from data takes the data's fields under the given key; its colour falls back to "#b8b8b853" when the data has none |
| Models.SharedCableIdAllowed | app/models.py:29-30 | Any keyed connections table stays keyed when a row is stored under the next surrogate key, whatever its cable id: the cable id need not be unique |
| Events.Subscribed | app/events.py:6-8 | `subscribe` appends the handler to the end of that name's list and creates the list if needed; every other name keeps its list |
| Events.InvocationsInOrder | app/events.py:10-17 | Emitting makes exactly one call per registered handler, in subscription order; a handler that raises does not stop the handlers after it |
| Events.InvocationsCount | app/events.py:12-14 | Each handler is called as many times as it occurs in the list of the emitted name |
| Events.EmitWithoutSubscribers | app/events.py:12 | Emitting a name with no subscribers calls nothing |
| Events.EmitCallsOnlyThatName | app/events.py:12-14 | A handler not subscribed under the emitted name is not called |
| Events.SubscribeTwiceRunsTwice | app/events.py:6-14 | A handler subscribed twice more is called exactly two more times per emit |
| Events.SubscribeExtends | app/events.py:4-8 | A subscription keeps every earlier subscription where it was (there is no removal) |
| Events.ExtendsTransitive | app/events.py:4-8 | Any series of subscriptions only grows the registry |
| Events.DispatchAppend | app/events.py:10-17 | Emitting two series of events one after the other makes the calls of the first series followed by the calls of the second |
| Events.EventBus.constructor | app/events.py:4 | The registry starts empty, with no calls and no events |
| Events.EventBus.Subscribe | app/events.py:6-8 | `subscribe` changes the registry exactly as `Subscribed` says, and the new registry extends the old one |
| Events.EventBus.Emit | app/events.py:10-17 | `emit` always returns. It appends the calls to the emitted name's handlers, in order, and leaves the registry unchanged. The journal gains one `Emitted` step |
| Crud.UpsertDeviceRows | app/crud.py:5-12 | After `upsert_device`, the id is present and holds the given device (overwritten or inserted); all other devices are unchanged |
| Crud.UpsertPositionRows | app/crud.py:14-21 | After `upsert_position`, the device id holds a position with the given x and y; all other positions are unchanged |
| Crud.AppendConnection | app/crud.py:23-25 | `save_connection` keeps every existing row and adds one more row holding the given data under the new surrogate key |
| Crud.UpsertRegionRows | app/crud.py:47-58 | An existing region gets all six fields overwritten. A region that is absent, or has no id, is inserted (with the default colour when none is given). Other regions are unchanged. Updating an existing region without a colour raises and leaves the table as it was |
| Crud.UpsertRegionOverwritesAll | app/crud.py:48-55 | Upserting an existing region with a colour replaces all six of its fields and adds no region |
| Crud.UpsertRegionWithoutIdInserts | app/crud.py:56-58 | Data without an id is inserted under a fresh key; the table grows by one |
| Crud.UpsertRegionIdempotent | app/crud.py:47-58 | Upserting data that carries an id twice gives the same table as upserting it once. The second call raises exactly when the data has no colour, even when the first call inserted the region |
| Crud.UpsertRegionWithoutIdTwice | app/crud.py:56-58 | Data without an id is not idempotent: upserting it twice adds two regions |
| Crud.UpsertDeviceSingle | app/crud.py:5-12 | Afterwards exactly one device has the id and it is the given one; the table stays keyed, with the same size on an update and one more row on an insert |
| Crud.UpsertPositionSingle | app/crud.py:14-21 | The positions table stays keyed by device id, and no second position is created for a device that has one |
| Crud.SaveConnectionAlwaysInserts | app/crud.py:23-25 | `save_connection` inserts even when the cable id is already stored: one more row, with a surrogate key distinct from every other |
| Crud.DeleteAbsentRegion | app/crud.py:60-61 | Deleting a region id that is not stored changes nothing |
| Crud.Store.constructor | app/models.py:6-49 | The four tables start empty and keyed |
| Crud.Store.UpsertDevice | app/crud.py:5-12 | The devices table becomes `UpsertDeviceRows` of the old one and stays keyed; no other table changes. The journal gains one write to devices |
| Crud.Store.UpsertPosition | app/crud.py:14-21 | The positions table becomes `UpsertPositionRows` of the old one and stays keyed; no other table changes. The journal gains one write to positions |
| Crud.Store.SaveConnection | app/crud.py:23-25 | One row is appended under the next surrogate key and the key counter advances. The journal gains one write to connections |
| Crud.Store.ClearAll | app/crud.py:27-31 | Positions, connections and devices become empty; regions are not touched. The journal shows the three deletes in that order, then a commit |
| Crud.Store.ClearPositions | app/crud.py:28 | The positions table becomes empty; the journal gains one delete of positions |
| Crud.Store.ClearDevices | app/services/netbox_sync.py:25 | The devices table becomes empty; the journal gains one delete of devices |
| Crud.Store.ClearConnections | app/services/netbox_sync.py:26 | The connections table becomes empty; the journal gains one delete of connections |
| Crud.Store.ClearRegions | app/services/netbox_sync.py:27 | The regions table becomes empty; the journal gains one delete of regions |
| Crud.Store.Commit | app/services/netbox_sync.py:28 | A commit changes no table; the journal gains one commit |
| Crud.Store.GetDevices | app/crud.py:33-34 | Returns exactly the stored devices |
| Crud.Store.GetPositions | app/crud.py:36-37 | Returns exactly the stored positions |
| Crud.Store.GetConnections | app/crud.py:39-40 | Returns every stored connection, in store order |
| Crud.Store.GetRegions | app/crud.py:44-45 | Returns exactly the stored regions |
| Crud.Store.UpsertRegion | app/crud.py:47-58 | Reports whether the upsert raised and the key the region is stored under (a fresh key when the data has none); the regions table becomes `UpsertRegionRows` of the old one. A write to regions is journalled exactly when it does not raise |
| Crud.Store.DeleteRegion | app/crud.py:60-61 | Removes the region with that id and nothing else; it is a no-op when the id is absent. The journal gains one write to regions |
| NetboxSync.NormalizeDevice | app/services/netbox_sync.py:33-37 | The stored device keeps the upstream id and name; its role is the role's name, or "unknown" when the role is missing or has no `name` key |
| NetboxSync.PortOfReads | app/services/netbox_sync.py:52-61 | A missing termination object reads as a port with no id and empty names. A null object or null device raises. Otherwise the port id is copied and a missing name or device name becomes "" |
| NetboxSync.NormalizeCableOutcome | app/services/netbox_sync.py:47-67 | A cable is skipped exactly when a termination list is missing or empty. A cable that passes is dropped exactly when its id is missing or a first termination raises. Otherwise it is kept, with its id and the two ports of its first terminations |
| NetboxSync.SiteRegion | app/services/netbox_sync.py:75-83 | The k-th site becomes region data with the site's id, its name or "", x = 50 + 550k, y = 50, size 500 x 400 and colour "#ccffcc" |
| NetboxSync.SaveDevice | app/services/netbox_sync.py:33-39 | One pass of the device loop: the normalised device is stored under its id, then one `device_added` is sent with the raw record. The store and the bus journal the write before the emit |
| NetboxSync.SaveDevices | app/services/netbox_sync.py:32-39 | The devices loop leaves exactly `DeviceRows` of the upstream list and sends exactly `DeviceEvents`. The journal gains exactly `DeviceSteps`: per device, its write and then its emit |
| NetboxSync.SaveCable | app/services/netbox_sync.py:47-67 | One pass of the cable loop. A kept cable adds one row with its data and sends one `connection_added` with the raw cable. A skipped or failing cable changes nothing. The journal gains the write and then the emit of a kept cable, and nothing otherwise |
| NetboxSync.StoreKeptCable | app/services/netbox_sync.py:54-65 | A kept cable adds one row holding its data and sends one `connection_added` with the raw cable; the journal shows the write before the emit |
| NetboxSync.SaveCables | app/services/netbox_sync.py:44-68 | The stored connections are exactly the data of the kept cables, in order; `count_conn` equals their number; the loop sends exactly `CableEvents` and journals exactly `CableSteps` |
| NetboxSync.SaveSite | app/services/netbox_sync.py:75-85 | One pass of the site loop: the laid-out region is upserted, then one `region_added` is sent with that region data. The journal shows the write before the emit |
| NetboxSync.SaveSites | app/services/netbox_sync.py:73-86 | The sites loop leaves exactly `RegionRows` of the sites, sends exactly `SiteEvents` and journals exactly `SiteSteps` |
| NetboxSync.RunSites | app/services/netbox_sync.py:72-90 | A failed sites fetch stops the run with no regions. Otherwise the sites are stored and `sync_completed` is sent last. The journal gains exactly `SitesPhase`: the request, the writes and emits, the commit, `sync_completed` |
| NetboxSync.RunCables | app/services/netbox_sync.py:44-90 | A failed cables fetch stops the run with no connections and no regions. Otherwise the run goes on to the sites phase. The journal gains exactly `CablesPhase` |
| NetboxSync.StoreDevicesAndGoOn | app/services/netbox_sync.py:31-90 | The devices are stored and announced, then the cables and sites phases follow, with their tables and events. The journal shows the device steps, a commit, then `CablesPhase` |
| NetboxSync.ClearMirrored | app/services/netbox_sync.py:25-27 | Devices, connections and regions become empty, and the journal shows their deletes in that order |
| NetboxSync.OpenRun | app/services/netbox_sync.py:22-28 | The run's opening: `sync_started` is emitted, then devices, connections and regions are deleted and committed, in that order in the journal (`OPENING`). The three tables are empty and the key counter is kept |
| NetboxSync.SyncFromNetbox | app/services/netbox_sync.py:11-91 | A run ends as the first failed fetch says. The steps journalled by the store's writes, deletes and commits, the bus's emits and the run's fetch requests are exactly `SyncTrace`. It emits exactly `SyncEvents`, each dispatched to its subscribers. It leaves the devices, connections and regions of a completed or stopped run. Positions are outside its frame |
| SyncProperties.DeviceStepsEvents | app/services/netbox_sync.py:32-39 | The devices loop emits one `device_added` per upstream device, in upstream order, and nothing else |
| SyncProperties.CableStepsEvents | app/services/netbox_sync.py:46-67 | The cables loop emits one `connection_added` per kept cable, in upstream order, and nothing else |
| SyncProperties.SiteStepsEvents | app/services/netbox_sync.py:73-85 | The sites loop emits one `region_added` per site, in upstream order, and nothing else |
| SyncProperties.SyncTraceEvents | app/services/netbox_sync.py:11-91 | The events among the steps of a run are exactly the events the run emits |
| SyncProperties.SyncBody | app/services/netbox_sync.py:22-90 | Every run has this shape: the opening; then the devices request; then body steps (none announces, clears or touches positions); then either the last commit and `sync_completed`, or the failed request |
| SyncProperties.SyncOpensFirst | app/services/netbox_sync.py:22-31 | `sync_started` is the first step. The deletes of devices, connections and regions and their commit follow, all before the first request (for devices). Nothing is announced as started again, and nothing is cleared later |
| SyncProperties.SyncCompletesLast | app/services/netbox_sync.py:86-90 | The run ends with `sync_completed`, right after the regions commit, exactly when all three fetches succeed, and `sync_completed` occurs nowhere else. A stopped run ends with the request that failed |
| SyncProperties.SyncLeavesPositions | app/services/netbox_sync.py:25-27 | No step of a run clears or writes the positions table |
| SyncProperties.SyncSendsNothing | app/services/netbox_sync.py:22-90 | No step of a run sends a websocket frame |
| SyncTables.DeviceRowsLastWins | app/services/netbox_sync.py:32-40 | Every upstream device id is in the devices table and every row sits under its own id. The row under an id is the normalised last upstream record with that id |
| SyncTables.KeptConnectionsFromCables | app/services/netbox_sync.py:46-67 | There are at most as many rows as cables, and as many `connection_added` as rows. The k-th event carries a cable from the input whose normalised data is the k-th row, and every kept cable's data is stored |
| SyncTables.DroppedCableLeavesNoTrace | app/services/netbox_sync.py:48-51 | A cable that is skipped or fails adds no row, no event and no step |
| SyncTables.RegionRowsLastWins | app/services/netbox_sync.py:73-85 | Every site id is in the regions table under its own id; the region under an id is the one laid out for the last site with that id |
| SyncTables.SiteLayoutApart | app/services/netbox_sync.py:78-80 | A later site's region starts strictly to the right of an earlier site's region |
| SyncTables.SyncedRegionsDisjoint | app/services/netbox_sync.py:75-84 | The regions of a run share one row and one size, and no two of them overlap |
| SyncTables.ThreeSitesLayout | app/services/netbox_sync.py:73-83 | Three sites with distinct ids are laid out at x = 50, 600 and 1150 |
| SyncTables.SyncAnnouncements | app/services/netbox_sync.py:22-90 | Listeners hear `sync_started` first and never again. They hear `sync_completed` exactly when every fetch succeeds, and then only as the last event |
| SyncTables.AbortedRunTables | app/services/netbox_sync.py:25-72 | A failed devices fetch leaves no devices, connections or regions and emits only `sync_started`. A failed cables fetch leaves no connections and no regions. Any failure leaves no regions |
| SyncTables.SmallInventoryCables | app/services/netbox_sync.py:46-65 | Of a linked cable and a cable with an empty side, only the linked one is stored and announced |
| SyncTables.SmallInventoryEvents | app/services/netbox_sync.py:22-90 | A run over two devices, those two cables and one site completes. Its events are named, in order: sync_started, device_added ×2, connection_added, region_added, sync_completed |
| SyncTables.SmallInventoryTables | app/services/netbox_sync.py:31-86 | The same run stores both devices (the role-less one as "unknown"), one connection, and the site's region at (50, 50) |
| RegionService.SaveRegion | app/services/regions.py:10-18 | On success, the regions become exactly what `upsert_region` makes of them, and one `region_updated` carrying the data as given is emitted and dispatched. When the upsert raises, nothing is stored or emitted. Devices, positions and connections never change. The journal shows the write, the commit and the emit in that order, and nothing when the upsert raises |
| RegionService.ListRegions | app/services/regions.py:20-24 | Returns exactly the stored regions, as `get_regions` does |
| RegionService.SavedRegionListed | app/services/regions.py:15-16 | A region saved with an id and a colour is present afterwards with exactly the saved fields |
| Api.Hub.constructor | app/main.py:36 | The client set starts empty |
| Api.Hub.Connect | app/main.py:39-40 | An accepted websocket is added to `clients` |
| Api.Hub.Disconnect | app/main.py:48-49 | When receiving fails, that websocket and only it leaves `clients` |
| Api.Hub.Relay | app/main.py:41-49 | A relayed message goes at most once to each other client and never back to the sender. The sender stays connected exactly when no other client's send fails, and then every other client receives the message. A failed send removes the sender, and no one else, from `clients` |
| Api.Hub.BroadcastUpdate | app/main.py:55-59 | Every client whose send succeeds receives `netbox_updated` exactly once. A failing client is skipped without stopping the others, and `clients` does not change. The journal gains one send step per frame, in the order the frames are sent |
| Api.UpdateFromNetbox | app/main.py:52-60 | The sync runs to its end before any broadcast. A failed fetch raises out of the endpoint and nothing is sent. Otherwise every working client receives `netbox_updated` and the answer is "updated". The bus records exactly `SyncEvents` and calls its subscribers with each of them in turn (`Dispatch`). The journal gains exactly the run's `SyncTrace` followed by one send step per frame sent |
| Api.AnnounceUpdate | app/main.py:54-60 | After the sync has returned: a sync that raised gives an error and sends nothing. Otherwise every working client receives `netbox_updated` once and the answer is "updated". The journal gains one send step per frame |
| Api.BroadcastAfterSync | app/main.py:53-59 | In the journal `UpdateFromNetbox` leaves, a step after the earlier entries is a send exactly when it comes after the whole `SyncTrace`, so every frame follows the sync's last step |
| Api.IntToStringParses | app/main.py:69 | Parsing an id written by `str(id)` gives the id back: `int(str(n)) == n` |
| Api.IntToStringInjective | app/main.py:69 | Distinct device ids are written as distinct keys |
| Api.ApiPositions | app/main.py:67-69 | The keys are exactly the stored device ids written in decimal. Each holds its position's x and y, and every key parses back to a stored device id |
| Api.PendingInsertsIff | app/crud.py:14-21 | With no flush before the query, the entries of one request insert a new position row exactly for the named device ids that have no stored position |
| Api.ClashesIff | app/main.py:83-85 | The commit of a save fails exactly when two entries name the same device and that device has no stored position (two inserts against the unique `device_id`) |
| Api.StageEntry | app/main.py:83-84 | One pass of the save loop. An entry with a non-integer key or a missing coordinate raises and nothing is written. Otherwise the positions, the pending inserts and the clash become those of one more entry, and one write is journalled |
| Api.StageEntries | app/main.py:83-84 | The loop upserts every entry in order when all are readable, and then says whether the commit will clash. It stops at the first unreadable entry. Only position writes are journalled |
| Api.ApiSavePositions | app/main.py:81-86 | One upsert per entry in order, then one commit, and the answer "ok". A key that is not an integer, or a missing coordinate, raises before the commit. Two entries that both insert a row for one device make the commit raise. Either way positions stay as they were and no commit is journalled |
| Api.SavedPositionsLastWins | app/main.py:83-84 | In the positions a committed save leaves, an entry's device id holds that entry's coordinates unless a later entry names the same id |
| Api.SavedPositionsKeyed | app/main.py:83-84 | Saving positions keeps at most one position per device |
| Api.SaveThenRead | app/main.py:67-86 | Round trip: after a save that commits (no clash), under canonical decimal keys, the positions read back hold each key with the coordinates saved under it |
| Api.ApiTopology | app/main.py:71-79 | One link per stored connection, in store order. The k-th link shows the k-th connection's cable id and the device and port names of both ends |
| Api.TopologyHidesIds | app/main.py:73-78 | The topology shows no surrogate keys and no port ids: connections that agree on cable ids, port names and device names show the same links |
| Api.TopologyAfterSync | app/main.py:71-79 | After a sync, the k-th link shows the id of the cable carried by the k-th `connection_added` and the port and device names read from that cable's first terminations |
| Api.ApiPostRegion | app/main.py:104-113 | A body without a colour is rejected: the regions, the bus, its subscriber calls and the journal are unchanged. Otherwise the region is upserted, `region_updated` is emitted, every subscriber is called with it (`Dispatch`) and the answer is "ok". The journal shows the write, the commit and the emit |
| Api.ApiDeleteRegionAsWritten | app/main.py:116-119 | As written, the answer is "deleted" but the delete is never committed, so the regions table is unchanged, and an existing region is still there. The journal shows the write and no commit |
| Api.ApiDeleteRegion | app/main.py:116-119 | With the commit the endpoint evidently intends: the region with that id is gone, every other region is unchanged, and the answer is "deleted" whether or not the region existed. The journal shows the write, then the commit |

## Left out

- Fetching from NetBox (netbox_client.py): the HTTP client, token and URLs are
  not modelled. Each fetch is an input that fails or returns a body.
- database.py, storage.py and positions.py are not part of this model: the
  engine setup, and plain JSON file reads and writes.
- Request routing, CORS, dependency injection and the request-body models of
  main.py are not modelled. The one exception is `RegionIn`'s required
  colour, which `Api.ApiPostRegion` models as a rejected request.
- Floating-point coordinates are modelled as integers. The source stores and
  returns them unchanged; its only arithmetic is the integer region layout.
- Async scheduling, overlapping runs, and changes to `clients` made by other
  websocket tasks during iteration are not modelled. The order in which a
  set is iterated is left open.
- The `region_updated` frames of `POST /api/regions` (main.py:108-112) are not
  modelled. The send is never awaited, so no frame is delivered.
- Logging is not modelled, and neither is `count_conn` beyond being returned:
  the source only logs it.
- The sessions do not flush automatically. A device or site id repeated
  within one fetched list would therefore give two pending inserts with one
  key, and the commit would fail.
  - `SyncTables.DeviceRowsLastWins`, `SyncTables.RegionRowsLastWins`,
    `SyncTables.SyncAnnouncements`, `NetboxSync.SaveDevices`,
    `NetboxSync.SaveSites`, `NetboxSync.RunSites`, `NetboxSync.RunCables`,
    `NetboxSync.StoreDevicesAndGoOn`, `NetboxSync.SyncFromNetbox` and
    `Api.UpdateFromNetbox` model a repeated id as the later record
    overwriting the earlier one. This is what the source's upsert would do if
    it flushed. NetBox ids are unique, so a fetched list never repeats one.
  - In the source, a repeated device id makes the devices commit
    (netbox_sync.py:40) raise, so the run stops there. A repeated site id makes
    the sites commit (netbox_sync.py:86) raise after every `region_added` has
    been emitted, so `sync_completed` is never sent. The members above do not
    show either abort.
- `NetboxSync.NormalizeDevice` covers a role that is missing or has no `name`
  key. It does not model three other cases:
  - a device without a `name` key, or a role that is JSON null: both raise
    out of the run;
  - a device `name` that is JSON null: the source stores NULL;
  - a role `name` that is JSON null: the source stores NULL, not "unknown".
  The model has only string names.
- `NetboxSync.PortOfReads` and `NetboxSync.PortOf` read a port `name` or a
  device `name` that is JSON null as "". In the source, `.get(key, "")`
  returns None for a null member, so the connection stores NULL and
  `GET /api/topology` shows null. A cable `id` that is JSON null is likewise
  not modelled (the source stores NULL; the model has only a present or
  missing id).
- `NetboxSync.SiteRegion` does not model a site `name` that is JSON null.
  `site.get("name", "")` then gives None. The regions table's name column is
  NOT NULL, so the sites commit (netbox_sync.py:86) fails after every
  `region_added` has been emitted.
- Three malformed fetch bodies are not representable in `Netbox`, whose
  `UpstreamDevice.id` and `UpstreamSite.id` are plain integers and whose
  `Response.results` is either missing or a list:
  - a device or site without an `id` key: `dev["id"]` (netbox_sync.py:34) or
    `site["id"]` (netbox_sync.py:76) raises KeyError and aborts the run;
  - a device or site `id` that is JSON null: SQLite gives the new row the
    next autoincrement key instead;
  - a `results` member that is JSON null: `.get("results", [])` returns None,
    and the loop over it raises TypeError.
- `Api.ParseInt` accepts an optional sign followed by decimal digits. It does
  not model the surrounding whitespace, underscores and non-ASCII digits that
  Python's `int()` also accepts.
- A termination whose `object` key is missing is kept as a port with no id and
  empty names (`NetboxSync.PortOfReads`), as the code does. It is not
  dropped.
- `GET /api/devices` and `GET /api/regions` are plain reads; their contents
  are stated by `Crud.Store.GetDevices` and `RegionService.ListRegions`.
- Surrogate keys of new regions are not modelled as autoincrement values:
  any key not yet in use may be chosen.
- Connection keys come from a counter, `nextConnectionId`, that only grows.
  The sync's delete of the connections table does not reset it. SQLite would
  number again from the largest remaining key. The model relies only on keys
  being distinct.

## Findings

| source | as written | input that shows it | evidently intended | confidence | as-written member | corrected member |
|---|---|---|---|---|---|---|
| app/main.py:116-119 | `api_delete_region` calls `delete_region` (app/crud.py:60-61, which does not commit) and returns; the session is then closed without a commit, so the delete is rolled back | `DELETE /api/regions/7` while region 7 exists: the answer is "deleted" and region 7 is still stored | commit after the delete, so the region is gone | not executed | Api.ApiDeleteRegionAsWritten | Api.ApiDeleteRegion |
