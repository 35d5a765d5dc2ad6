/**
 * The reconciliation run (app/services/netbox_sync.py): emit `sync_started`,
 * clear devices, connections and regions, then fetch, normalise and store
 * devices, cables and sites in that order, emitting one event per stored item,
 * and finally emit `sync_completed`. The three fetches are inputs; a failed
 * fetch raises out of the run at that point.
 *
 * The run is specified by the sequence of steps it journals (`SyncTrace`:
 * the store's writes, deletes and commits, the bus's emits and the fetch
 * requests) and by the tables it leaves behind; the lemmas in SyncProperties
 * and SyncTables state the ordering, skip and layout rules over that
 * specification.
 */
module NetboxSync {
  import opened Wrappers
  import opened Models
  import opened Netbox
  import opened Events
  import opened Steps
  import opened Crud

  const SYNC_STARTED: string := "sync_started"
  const DEVICE_ADDED: string := "device_added"
  const CONNECTION_ADDED: string := "connection_added"
  const REGION_ADDED: string := "region_added"
  const SYNC_COMPLETED: string := "sync_completed"

  /** Role of a device whose upstream record has no role (or a role without a name). */
  const UNKNOWN_ROLE: string := "unknown"

  /** Regions laid out from sites: a row of 500 x 400 boxes, 550 apart, starting at (50, 50). */
  const REGION_LEFT: int := 50
  const REGION_STRIDE: int := 550
  const REGION_TOP: int := 50
  const REGION_WIDTH: int := 500
  const REGION_HEIGHT: int := 400
  const SITE_COLOR: string := "#ccffcc"

  // ---------------------------------------------------------------------------
  // Normalisation of one upstream record

  /** The device stored for an upstream device. */
  function NormalizeDevice(d: UpstreamDevice): (r: Device)
    ensures r.id == d.id && r.name == d.name
    ensures d.role.None? ==> r.role == UNKNOWN_ROLE
    ensures d.role.Some? && d.role.value.name.Some? ==> r.role == d.role.value.name.value
    ensures d.role.Some? && d.role.value.name.None? ==> r.role == UNKNOWN_ROLE
  {
    var role := match d.role
      case None => UNKNOWN_ROLE
      case Some(ref) => ref.name.GetOr(UNKNOWN_ROLE);
    Device(d.id, d.name, role)
  }

  /** `not a_term` is false: the termination list is present and non-empty. */
  predicate HasTermination(side: Option<seq<Termination>>) {
    side.Some? && |side.value| > 0
  }

  /**
   * The port read from `term[0].get("object", {})`, or None when reading it
   * raises (the object, or its device, is JSON null).
   */
  function PortOf(obj: Member<PortObject>): Option<Port>
  {
    match obj
    case Absent => Some(Port(None, "", ""))
    case Null => None
    case Present(o) =>
      match o.device
      case Absent => Some(Port(o.id, o.name.GetOr(""), ""))
      case Null => None
      case Present(dev) => Some(Port(o.id, o.name.GetOr(""), dev.name.GetOr("")))
  }

  /**
   * A missing object reads as a port with no id and empty names; a null object
   * or a null device raises; otherwise the id is copied and a missing name or
   * device name reads as "".
   */
  lemma PortOfReads(obj: Member<PortObject>)
    ensures obj.Absent? ==> PortOf(obj) == Some(Port(None, "", ""))
    ensures obj.Null? ==> PortOf(obj).None?
    ensures obj.Present? ==> (PortOf(obj).None? <==> obj.value.device.Null?)
    ensures obj.Present? && PortOf(obj).Some? ==>
      && PortOf(obj).value.id == obj.value.id
      && PortOf(obj).value.name == obj.value.name.GetOr("")
      && PortOf(obj).value.device == (if obj.value.device.Present? then obj.value.device.value.name.GetOr("") else "")
  {
  }

  /** What happens to one cable: skipped by the termination check, dropped by the exception handler, or kept. */
  datatype CableOutcome = Skipped | Raised | Kept(data: ConnectionData)

  /** The connection made from an upstream cable, if any. */
  function NormalizeCable(c: UpstreamCable): CableOutcome
  {
    if !HasTermination(c.aTerminations) || !HasTermination(c.bTerminations) then Skipped
    else
      var pa := PortOf(c.aTerminations.value[0].obj);
      var pb := PortOf(c.bTerminations.value[0].obj);
      if c.id.None? || pa.None? || pb.None? then Raised
      else Kept(ConnectionData(c.id.value, pa.value, pb.value))
  }

  /**
   * A cable is skipped exactly when a termination list is missing or empty; a
   * cable that passes that check is dropped exactly when its id is missing or
   * a first termination cannot be read, and is otherwise kept with its id and
   * the two ports read from the first terminations.
   */
  lemma NormalizeCableOutcome(c: UpstreamCable)
    ensures NormalizeCable(c).Skipped? <==> !HasTermination(c.aTerminations) || !HasTermination(c.bTerminations)
    ensures !NormalizeCable(c).Skipped? ==>
      var pa := PortOf(c.aTerminations.value[0].obj);
      var pb := PortOf(c.bTerminations.value[0].obj);
      && (NormalizeCable(c).Raised? <==> c.id.None? || pa.None? || pb.None?)
      && (NormalizeCable(c).Kept? ==> NormalizeCable(c).data == ConnectionData(c.id.value, pa.value, pb.value))
  {
  }

  /** The region data laid out for the `idx`-th site (0-based, in upstream order). */
  function SiteRegion(s: UpstreamSite, idx: nat): (r: RegionData)
    ensures r.id == Some(s.id) && r.name == s.name.GetOr("")
    ensures r.x == REGION_LEFT + idx * REGION_STRIDE && r.y == REGION_TOP
    ensures r.width == REGION_WIDTH && r.height == REGION_HEIGHT && r.color == Some(SITE_COLOR)
  {
    RegionData(Some(s.id), s.name.GetOr(""), REGION_LEFT + idx * REGION_STRIDE, REGION_TOP,
               REGION_WIDTH, REGION_HEIGHT, Some(SITE_COLOR))
  }

  // ---------------------------------------------------------------------------
  // The tables a run leaves behind

  /** The devices table built from the upstream devices, one `db.add` per device. */
  function DeviceRows(ds: seq<UpstreamDevice>): map<int, Device>
  {
    if ds == [] then map[]
    else
      var d := NormalizeDevice(ds[|ds| - 1]);
      DeviceRows(ds[..|ds| - 1])[d.id := d]
  }

  /** The connection row made from one cable: one row if it is kept, none otherwise. */
  function KeptRow(c: UpstreamCable): seq<ConnectionData>
  {
    match NormalizeCable(c)
    case Kept(data) => [data]
    case _ => []
  }

  /** The connection rows made from the upstream cables, in upstream order. */
  function KeptConnections(cs: seq<UpstreamCable>): seq<ConnectionData>
  {
    if cs == [] then [] else KeptConnections(cs[..|cs| - 1]) + KeptRow(cs[|cs| - 1])
  }

  /** The regions table built by upserting each laid-out site into an empty table. */
  function RegionRows(ss: seq<UpstreamSite>): map<int, Region>
  {
    if ss == [] then map[]
    else UpsertRegionRows(RegionRows(ss[..|ss| - 1]), SiteRegion(ss[|ss| - 1], |ss| - 1), 0)
  }

  /** The data of stored connections, surrogate keys left out: row by row, in order. */
  function DataOfAll(cs: seq<Connection>): (r: seq<ConnectionData>)
    ensures |r| == |cs|
    ensures forall k :: 0 <= k < |cs| ==> r[k] == DataOf(cs[k])
  {
    if cs == [] then [] else DataOfAll(cs[..|cs| - 1]) + [DataOf(cs[|cs| - 1])]
  }

  // ---------------------------------------------------------------------------
  // The events of a run

  function DeviceAdded(d: UpstreamDevice): Event {
    Event(DEVICE_ADDED, DeviceRecord(d))
  }

  function ConnectionAdded(c: UpstreamCable): Event {
    Event(CONNECTION_ADDED, CableRecord(c))
  }

  function RegionAdded(s: UpstreamSite, idx: nat): Event {
    Event(REGION_ADDED, RegionRecord(SiteRegion(s, idx)))
  }

  const STARTED: Event := Event(SYNC_STARTED, NoPayload)
  const COMPLETED: Event := Event(SYNC_COMPLETED, NoPayload)

  /** One `device_added` per upstream device, carrying the raw record, in upstream order. */
  function DeviceEvents(ds: seq<UpstreamDevice>): seq<Event>
  {
    seq(|ds|, k requires 0 <= k < |ds| => DeviceAdded(ds[k]))
  }

  /** The `connection_added` of one cable: one if the cable is kept, none otherwise. */
  function CableEvent(c: UpstreamCable): seq<Event>
  {
    if NormalizeCable(c).Kept? then [ConnectionAdded(c)] else []
  }

  /** The `connection_added` events of the kept cables, in upstream order. */
  function CableEvents(cs: seq<UpstreamCable>): seq<Event>
  {
    if cs == [] then [] else CableEvents(cs[..|cs| - 1]) + CableEvent(cs[|cs| - 1])
  }

  /** One `region_added` per site, carrying the laid-out region data, in upstream order. */
  function SiteEvents(ss: seq<UpstreamSite>): seq<Event>
  {
    seq(|ss|, k requires 0 <= k < |ss| => RegionAdded(ss[k], k))
  }

  /** The events after the cables request: the kept cables, then the sites phase. */
  function CablesPhaseEvents(cabs: Response<UpstreamCable>, sites: Response<UpstreamSite>): seq<Event>
  {
    if cabs.FetchFailed? then []
    else CableEvents(ResultsOf(cabs)) + SitesPhaseEvents(sites)
  }

  /** The events after the sites request: the sites, then `sync_completed`. */
  function SitesPhaseEvents(sites: Response<UpstreamSite>): seq<Event>
  {
    if sites.FetchFailed? then [] else SiteEvents(ResultsOf(sites)) + [COMPLETED]
  }

  /** The events after the devices request: the devices, then the cables phase. */
  function DevicesPhaseEvents(devs: Response<UpstreamDevice>, cabs: Response<UpstreamCable>,
                              sites: Response<UpstreamSite>): seq<Event>
  {
    if devs.FetchFailed? then []
    else DeviceEvents(ResultsOf(devs)) + CablesPhaseEvents(cabs, sites)
  }

  /** Every event a run emits, in order. */
  function SyncEvents(devs: Response<UpstreamDevice>, cabs: Response<UpstreamCable>,
                      sites: Response<UpstreamSite>): seq<Event>
  {
    [STARTED] + DevicesPhaseEvents(devs, cabs, sites)
  }

  // ---------------------------------------------------------------------------
  // The steps of a run

  /** The event of one step: its own if it is an emit, none otherwise. */
  function StepEvents(s: Step): seq<Event>
  {
    if s.Emitted? then [s.event] else []
  }

  /** The events among `trace`, in order. */
  function EventsOf(trace: seq<Step>): seq<Event>
  {
    if trace == [] then [] else EventsOf(trace[..|trace| - 1]) + StepEvents(trace[|trace| - 1])
  }

  /** Store and announce each device. */
  function DeviceSteps(ds: seq<UpstreamDevice>): seq<Step>
  {
    if ds == [] then []
    else DeviceSteps(ds[..|ds| - 1]) + [Wrote(DevicesTable), Emitted(DeviceAdded(ds[|ds| - 1]))]
  }

  /** Store and announce a cable that yields a connection; nothing for the others. */
  function CableStep(c: UpstreamCable): seq<Step>
  {
    if NormalizeCable(c).Kept? then [Wrote(ConnectionsTable), Emitted(ConnectionAdded(c))] else []
  }

  /** Store and announce each cable that yields a connection. */
  function CableSteps(cs: seq<UpstreamCable>): seq<Step>
  {
    if cs == [] then [] else CableSteps(cs[..|cs| - 1]) + CableStep(cs[|cs| - 1])
  }

  /** Upsert and announce the region laid out for each site. */
  function SiteSteps(ss: seq<UpstreamSite>): seq<Step>
  {
    if ss == [] then []
    else SiteSteps(ss[..|ss| - 1]) + [Wrote(RegionsTable), Emitted(RegionAdded(ss[|ss| - 1], |ss| - 1))]
  }

  /** Announce the run, clear the three mirrored tables, commit. */
  const OPENING: seq<Step> := [Emitted(STARTED), Cleared(DevicesTable),
                               Cleared(ConnectionsTable), Cleared(RegionsTable), Committed]

  /** Every step a run takes for the given fetch results; it stops right after a failed request. */
  function SyncTrace(devs: Response<UpstreamDevice>, cabs: Response<UpstreamCable>,
                     sites: Response<UpstreamSite>): seq<Step>
  {
    OPENING + DevicesPhase(devs, cabs, sites)
  }

  /** Request the devices; unless that fails, store them, commit and go on to the cables. */
  function DevicesPhase(devs: Response<UpstreamDevice>, cabs: Response<UpstreamCable>,
                        sites: Response<UpstreamSite>): seq<Step>
  {
    [Requested(DevicesEndpoint)]
    + if devs.FetchFailed? then []
      else DeviceSteps(ResultsOf(devs)) + [Committed] + CablesPhase(cabs, sites)
  }

  /** Request the cables; unless that fails, store the kept ones, commit and go on to the sites. */
  function CablesPhase(cabs: Response<UpstreamCable>, sites: Response<UpstreamSite>): seq<Step>
  {
    [Requested(CablesEndpoint)]
    + if cabs.FetchFailed? then []
      else CableSteps(ResultsOf(cabs)) + [Committed] + SitesPhase(sites)
  }

  /** Request the sites; unless that fails, store them, commit and announce completion. */
  function SitesPhase(sites: Response<UpstreamSite>): seq<Step>
  {
    [Requested(SitesEndpoint)]
    + if sites.FetchFailed? then []
      else SiteSteps(ResultsOf(sites)) + [Committed] + [Emitted(COMPLETED)]
  }

  /** How a run ends: it completes, or it raises out of the first failed fetch. */
  datatype SyncOutcome = Completed | Aborted(at: Endpoint)

  function OutcomeOf(devs: Response<UpstreamDevice>, cabs: Response<UpstreamCable>,
                     sites: Response<UpstreamSite>): SyncOutcome
  {
    if devs.FetchFailed? then Aborted(DevicesEndpoint)
    else if cabs.FetchFailed? then Aborted(CablesEndpoint)
    else if sites.FetchFailed? then Aborted(SitesEndpoint)
    else Completed
  }

  /** Devices after a run: what the devices fetch returned; none if it failed. */
  function SyncedDevices(devs: Response<UpstreamDevice>): map<int, Device>
  {
    if devs.FetchFailed? then map[] else DeviceRows(ResultsOf(devs))
  }

  /** Connections after a run: none unless both the devices and the cables fetch succeeded. */
  function SyncedConnections(devs: Response<UpstreamDevice>, cabs: Response<UpstreamCable>): seq<ConnectionData>
  {
    if devs.FetchFailed? || cabs.FetchFailed? then [] else KeptConnections(ResultsOf(cabs))
  }

  /** Regions after a run: none unless all three fetches succeeded. */
  function SyncedRegions(devs: Response<UpstreamDevice>, cabs: Response<UpstreamCable>,
                         sites: Response<UpstreamSite>): map<int, Region>
  {
    if devs.FetchFailed? || cabs.FetchFailed? || sites.FetchFailed? then map[]
    else RegionRows(ResultsOf(sites))
  }

  // ---------------------------------------------------------------------------
  // Sequence facts the run needs

  /** Since (`e0`, `c0`), the bus has emitted exactly `evs` and dispatched each to its handlers. */
  ghost predicate Sent(bus: EventBus, e0: seq<Event>, c0: seq<Call>, evs: seq<Event>)
    reads bus
  {
    && bus.emitted == e0 + evs
    && bus.calls == c0 + Dispatch(bus.listeners, evs)
  }

  /** Two stretches of emits, one after the other, make one stretch. */
  lemma SentThen(r: Registry, e0: seq<Event>, c0: seq<Call>, a: seq<Event>, b: seq<Event>,
                 e2: seq<Event>, c2: seq<Call>)
    requires e2 == (e0 + a) + b
    requires c2 == (c0 + Dispatch(r, a)) + Dispatch(r, b)
    ensures e2 == e0 + (a + b)
    ensures c2 == c0 + Dispatch(r, a + b)
  {
    AppendAssoc(e0, a, b);
    DispatchAppend(r, a, b);
    AppendAssoc(c0, Dispatch(r, a), Dispatch(r, b));
  }

  // ---------------------------------------------------------------------------
  // The run

  /** `emit(e.name, e.payload)`: one more event sent, and journalled. */
  method Publish(bus: EventBus, e: Event, ghost e0: seq<Event>, ghost c0: seq<Call>, ghost evs: seq<Event>,
                 ghost log: Journal)
    requires Sent(bus, e0, c0, evs)
    modifies bus`calls, bus`emitted, log`steps
    ensures Sent(bus, e0, c0, evs + [e])
    ensures log.steps == old(log.steps) + [Emitted(e)]
  {
    DispatchSnoc(bus.listeners, evs, e);
    AppendAssoc(e0, evs, [e]);
    AppendAssoc(c0, Dispatch(bus.listeners, evs), Invocations(HandlersOf(bus.listeners, e.name), e));
    bus.Emit(e.name, e.payload, log);
  }

  /** The tables, events and steps after one more device. */
  lemma DevicePrefix(ds: seq<UpstreamDevice>, i: nat, t: seq<Step>)
    requires i < |ds|
    ensures t + DeviceSteps(ds[..i + 1])
            == t + DeviceSteps(ds[..i]) + [Wrote(DevicesTable), Emitted(DeviceAdded(ds[i]))]
    ensures DeviceEvents(ds[..i + 1]) == DeviceEvents(ds[..i]) + [DeviceAdded(ds[i])]
    ensures DeviceRows(ds[..i + 1]) == DeviceRows(ds[..i])[ds[i].id := NormalizeDevice(ds[i])]
  {
    assert ds[..i + 1][..i] == ds[..i];
    AppendAssoc(t, DeviceSteps(ds[..i]), [Wrote(DevicesTable), Emitted(DeviceAdded(ds[i]))]);
  }

  /** One pass of the device loop: `db.add(Device(...))`, then `device_added` with the raw record. */
  method SaveDevice(store: Store, bus: EventBus, dev: UpstreamDevice,
                    ghost e0: seq<Event>, ghost c0: seq<Call>, ghost evs: seq<Event>, ghost log: Journal)
    requires store.Valid() && Sent(bus, e0, c0, evs)
    modifies store`devices, bus`calls, bus`emitted, log`steps
    ensures store.Valid()
    ensures store.devices == old(store.devices)[dev.id := NormalizeDevice(dev)]
    ensures Sent(bus, e0, c0, evs + [DeviceAdded(dev)])
    ensures log.steps == old(log.steps) + [Wrote(DevicesTable), Emitted(DeviceAdded(dev))]
  {
    store.UpsertDevice(NormalizeDevice(dev), log);
    Publish(bus, DeviceAdded(dev), e0, c0, evs, log);
  }

  /** The devices phase of the run: one `db.add` and one `device_added` per upstream device. */
  method SaveDevices(store: Store, bus: EventBus, ds: seq<UpstreamDevice>, ghost log: Journal)
    requires store.Valid() && store.devices == map[]
    modifies store`devices, bus`calls, bus`emitted, log`steps
    ensures store.Valid()
    ensures store.devices == DeviceRows(ds)
    ensures log.steps == old(log.steps) + DeviceSteps(ds)
    ensures Sent(bus, old(bus.emitted), old(bus.calls), DeviceEvents(ds))
  {
    var i := 0;
    while i < |ds|
      invariant 0 <= i <= |ds|
      invariant store.Valid()
      invariant store.devices == DeviceRows(ds[..i])
      invariant log.steps == old(log.steps) + DeviceSteps(ds[..i])
      invariant Sent(bus, old(bus.emitted), old(bus.calls), DeviceEvents(ds[..i]))
    {
      DevicePrefix(ds, i, old(log.steps));
      SaveDevice(store, bus, ds[i], old(bus.emitted), old(bus.calls), DeviceEvents(ds[..i]), log);
      i := i + 1;
    }
    assert ds[..i] == ds;
  }

  /** The data of one more stored connection. */
  lemma DataOfAllSnoc(cs: seq<Connection>, c: Connection)
    ensures DataOfAll(cs + [c]) == DataOfAll(cs) + [DataOf(c)]
  {
    assert (cs + [c])[..|cs|] == cs;
  }

  /** The rows, events and steps after one more cable. */
  lemma CablePrefix(cs: seq<UpstreamCable>, i: nat, t: seq<Step>)
    requires i < |cs|
    ensures t + CableSteps(cs[..i + 1]) == t + CableSteps(cs[..i]) + CableStep(cs[i])
    ensures CableEvents(cs[..i + 1]) == CableEvents(cs[..i]) + CableEvent(cs[i])
    ensures KeptConnections(cs[..i + 1]) == KeptConnections(cs[..i]) + KeptRow(cs[i])
  {
    assert cs[..i + 1][..i] == cs[..i];
    AppendAssoc(t, CableSteps(cs[..i]), CableStep(cs[i]));
  }

  /** `db.add(conn)`, then `connection_added` with the raw cable. */
  method StoreKeptCable(store: Store, bus: EventBus, cable: UpstreamCable, data: ConnectionData,
                        ghost e0: seq<Event>, ghost c0: seq<Call>, ghost evs: seq<Event>, ghost log: Journal)
    requires NormalizeCable(cable) == Kept(data)
    requires store.Valid() && Sent(bus, e0, c0, evs)
    modifies store`connections, store`nextConnectionId, bus`calls, bus`emitted, log`steps
    ensures store.Valid()
    ensures |store.connections| == |old(store.connections)| + 1
    ensures DataOfAll(store.connections) == DataOfAll(old(store.connections)) + [data]
    ensures Sent(bus, e0, c0, evs + [ConnectionAdded(cable)])
    ensures log.steps == old(log.steps) + [Wrote(ConnectionsTable), Emitted(ConnectionAdded(cable))]
  {
    ghost var before := store.connections;
    store.SaveConnection(data, log);
    DataOfAllSnoc(before, store.connections[|before|]);
    assert store.connections == before + [store.connections[|before|]];
    Publish(bus, ConnectionAdded(cable), e0, c0, evs, log);
  }

  /**
   * One pass of the cable loop. A kept cable is stored and announced with the
   * raw record; a skipped cable, and one whose fields raise, leave everything as it was.
   */
  method SaveCable(store: Store, bus: EventBus, cable: UpstreamCable,
                   ghost e0: seq<Event>, ghost c0: seq<Call>, ghost evs: seq<Event>, ghost log: Journal)
    returns (kept: bool)
    requires store.Valid() && Sent(bus, e0, c0, evs)
    modifies store`connections, store`nextConnectionId, bus`calls, bus`emitted, log`steps
    ensures store.Valid()
    ensures kept == NormalizeCable(cable).Kept?
    ensures |store.connections| == |old(store.connections)| + (if kept then 1 else 0)
    ensures DataOfAll(store.connections) == DataOfAll(old(store.connections)) + KeptRow(cable)
    ensures Sent(bus, e0, c0, evs + CableEvent(cable))
    ensures log.steps == old(log.steps) + CableStep(cable)
  {
    match NormalizeCable(cable) {
      case Skipped =>
        // `continue`: a termination list is missing or empty.
        kept := false;
        assert evs + [] == evs;
        assert DataOfAll(store.connections) + [] == DataOfAll(store.connections);
        assert log.steps + [] == log.steps;
      case Raised =>
        // The exception is logged and the loop moves on.
        kept := false;
        assert evs + [] == evs;
        assert DataOfAll(store.connections) + [] == DataOfAll(store.connections);
        assert log.steps + [] == log.steps;
      case Kept(data) =>
        StoreKeptCable(store, bus, cable, data, e0, c0, evs, log);
        kept := true;
    }
  }

  /**
   * The cables phase of the run: a connection and a `connection_added` for
   * every cable that has both terminations and whose fields can be read;
   * `count` is `count_conn`.
   */
  method SaveCables(store: Store, bus: EventBus, cs: seq<UpstreamCable>, ghost log: Journal)
    returns (count: nat)
    requires store.Valid() && store.connections == []
    modifies store`connections, store`nextConnectionId, bus`calls, bus`emitted, log`steps
    ensures store.Valid()
    ensures DataOfAll(store.connections) == KeptConnections(cs)
    ensures count == |KeptConnections(cs)|
    ensures log.steps == old(log.steps) + CableSteps(cs)
    ensures Sent(bus, old(bus.emitted), old(bus.calls), CableEvents(cs))
  {
    count := 0;
    var i := 0;
    while i < |cs|
      invariant 0 <= i <= |cs|
      invariant store.Valid()
      invariant DataOfAll(store.connections) == KeptConnections(cs[..i])
      invariant count == |store.connections|
      invariant log.steps == old(log.steps) + CableSteps(cs[..i])
      invariant Sent(bus, old(bus.emitted), old(bus.calls), CableEvents(cs[..i]))
    {
      CablePrefix(cs, i, old(log.steps));
      ghost var rows := DataOfAll(store.connections);
      var kept := SaveCable(store, bus, cs[i], old(bus.emitted), old(bus.calls), CableEvents(cs[..i]), log);
      assert DataOfAll(store.connections) == rows + KeptRow(cs[i]);
      if kept {
        count := count + 1;
      }
      i := i + 1;
    }
    assert cs[..i] == cs;
    assert |DataOfAll(store.connections)| == |store.connections|;
  }

  /** The table, events and steps after one more site. */
  lemma SitePrefix(ss: seq<UpstreamSite>, i: nat, t: seq<Step>)
    requires i < |ss|
    ensures t + SiteSteps(ss[..i + 1])
            == t + SiteSteps(ss[..i]) + [Wrote(RegionsTable), Emitted(RegionAdded(ss[i], i))]
    ensures SiteEvents(ss[..i + 1]) == SiteEvents(ss[..i]) + [RegionAdded(ss[i], i)]
    ensures RegionRows(ss[..i + 1]) == UpsertRegionRows(RegionRows(ss[..i]), SiteRegion(ss[i], i), 0)
  {
    assert ss[..i + 1][..i] == ss[..i];
    AppendAssoc(t, SiteSteps(ss[..i]), [Wrote(RegionsTable), Emitted(RegionAdded(ss[i], i))]);
  }

  /** One pass of the site loop: upsert the laid-out region, then `region_added` with its data. */
  method SaveSite(store: Store, bus: EventBus, site: UpstreamSite, idx: nat,
                  ghost e0: seq<Event>, ghost c0: seq<Call>, ghost evs: seq<Event>, ghost log: Journal)
    requires store.Valid() && Sent(bus, e0, c0, evs)
    modifies store`regions, bus`calls, bus`emitted, log`steps
    ensures store.Valid()
    ensures store.regions == UpsertRegionRows(old(store.regions), SiteRegion(site, idx), 0)
    ensures Sent(bus, e0, c0, evs + [RegionAdded(site, idx)])
    ensures log.steps == old(log.steps) + [Wrote(RegionsTable), Emitted(RegionAdded(site, idx))]
  {
    var data := SiteRegion(site, idx);
    // A laid-out region always has a colour, so the upsert cannot raise.
    var _, _ := store.UpsertRegion(data, log);
    Publish(bus, Event(REGION_ADDED, RegionRecord(data)), e0, c0, evs, log);
  }

  /** The sites phase of the run: the `idx`-th site upserted as a region and announced with `region_added`. */
  method SaveSites(store: Store, bus: EventBus, ss: seq<UpstreamSite>, ghost log: Journal)
    requires store.Valid() && store.regions == map[]
    modifies store`regions, bus`calls, bus`emitted, log`steps
    ensures store.Valid()
    ensures store.regions == RegionRows(ss)
    ensures log.steps == old(log.steps) + SiteSteps(ss)
    ensures Sent(bus, old(bus.emitted), old(bus.calls), SiteEvents(ss))
  {
    var idx := 0;
    while idx < |ss|
      invariant 0 <= idx <= |ss|
      invariant store.Valid()
      invariant store.regions == RegionRows(ss[..idx])
      invariant log.steps == old(log.steps) + SiteSteps(ss[..idx])
      invariant Sent(bus, old(bus.emitted), old(bus.calls), SiteEvents(ss[..idx]))
    {
      SitePrefix(ss, idx, old(log.steps));
      SaveSite(store, bus, ss[idx], idx, old(bus.emitted), old(bus.calls), SiteEvents(ss[..idx]), log);
      idx := idx + 1;
    }
    assert ss[..idx] == ss;
  }

  /** The devices phase, unfolded as the run takes it. */
  lemma DevicesPhaseSteps(devs: Response<UpstreamDevice>, cabs: Response<UpstreamCable>,
                          sites: Response<UpstreamSite>, t: seq<Step>)
    ensures devs.FetchFailed? ==> t + DevicesPhase(devs, cabs, sites) == t + [Requested(DevicesEndpoint)]
    ensures devs.Fetched? ==>
      t + DevicesPhase(devs, cabs, sites)
      == t + [Requested(DevicesEndpoint)] + DeviceSteps(ResultsOf(devs)) + [Committed] + CablesPhase(cabs, sites)
  {
  }

  /** The cables phase, unfolded as the run takes it. */
  lemma CablesPhaseSteps(cabs: Response<UpstreamCable>, sites: Response<UpstreamSite>, t: seq<Step>)
    ensures cabs.FetchFailed? ==> t + CablesPhase(cabs, sites) == t + [Requested(CablesEndpoint)]
    ensures cabs.Fetched? ==>
      t + CablesPhase(cabs, sites)
      == t + [Requested(CablesEndpoint)] + CableSteps(ResultsOf(cabs)) + [Committed] + SitesPhase(sites)
  {
  }

  /** The sites phase, unfolded as the run takes it. */
  lemma SitesPhaseSteps(sites: Response<UpstreamSite>, t: seq<Step>)
    ensures sites.FetchFailed? ==> t + SitesPhase(sites) == t + [Requested(SitesEndpoint)]
    ensures sites.Fetched? ==>
      t + SitesPhase(sites)
      == t + [Requested(SitesEndpoint)] + SiteSteps(ResultsOf(sites)) + [Committed] + [Emitted(COMPLETED)]
  {
  }

  /** Fetch and store the sites, commit and announce completion. */
  method RunSites(store: Store, bus: EventBus, sites: Response<UpstreamSite>, ghost log: Journal)
    returns (outcome: SyncOutcome)
    requires store.Valid() && store.regions == map[]
    modifies store`regions, bus`calls, bus`emitted, log`steps
    ensures store.Valid()
    ensures outcome == (if sites.FetchFailed? then Aborted(SitesEndpoint) else Completed)
    ensures store.regions == (if sites.FetchFailed? then map[] else RegionRows(ResultsOf(sites)))
    ensures log.steps == old(log.steps) + SitesPhase(sites)
    ensures Sent(bus, old(bus.emitted), old(bus.calls), SitesPhaseEvents(sites))
  {
    SitesPhaseSteps(sites, old(log.steps));
    // The fetch itself is an input; only the request is journalled.
    log.steps := log.steps + [Requested(SitesEndpoint)];
    if sites.FetchFailed? {
      assert old(bus.emitted) + [] == old(bus.emitted);
      assert old(bus.calls) + [] == old(bus.calls);
      return Aborted(SitesEndpoint);
    }
    SaveSites(store, bus, ResultsOf(sites), log);
    store.Commit(log);
    Publish(bus, COMPLETED, old(bus.emitted), old(bus.calls), SiteEvents(ResultsOf(sites)), log);
    outcome := Completed;
  }

  /** Fetch and store the cables, commit, then run the sites. */
  method RunCables(store: Store, bus: EventBus, cabs: Response<UpstreamCable>,
                   sites: Response<UpstreamSite>, ghost log: Journal)
    returns (outcome: SyncOutcome)
    requires store.Valid() && store.connections == [] && store.regions == map[]
    modifies store`connections, store`nextConnectionId, store`regions, bus`calls, bus`emitted, log`steps
    ensures store.Valid()
    ensures outcome == (if cabs.FetchFailed? then Aborted(CablesEndpoint)
                        else if sites.FetchFailed? then Aborted(SitesEndpoint) else Completed)
    ensures DataOfAll(store.connections) == (if cabs.FetchFailed? then [] else KeptConnections(ResultsOf(cabs)))
    ensures store.regions == (if cabs.FetchFailed? || sites.FetchFailed? then map[] else RegionRows(ResultsOf(sites)))
    ensures log.steps == old(log.steps) + CablesPhase(cabs, sites)
    ensures Sent(bus, old(bus.emitted), old(bus.calls), CablesPhaseEvents(cabs, sites))
  {
    CablesPhaseSteps(cabs, sites, old(log.steps));
    log.steps := log.steps + [Requested(CablesEndpoint)];
    if cabs.FetchFailed? {
      assert old(bus.emitted) + [] == old(bus.emitted);
      assert old(bus.calls) + [] == old(bus.calls);
      return Aborted(CablesEndpoint);
    }
    var countConn := SaveCables(store, bus, ResultsOf(cabs), log);
    store.Commit(log);
    outcome := RunSites(store, bus, sites, log);
    SentThen(bus.listeners, old(bus.emitted), old(bus.calls), CableEvents(ResultsOf(cabs)), SitesPhaseEvents(sites),
             bus.emitted, bus.calls);
  }

  /** Store the fetched devices, commit, then run the cables and sites. */
  method StoreDevicesAndGoOn(store: Store, bus: EventBus, ds: seq<UpstreamDevice>,
                             cabs: Response<UpstreamCable>, sites: Response<UpstreamSite>, ghost log: Journal)
    returns (outcome: SyncOutcome)
    requires store.Valid() && store.devices == map[] && store.connections == [] && store.regions == map[]
    modifies store`devices, store`connections, store`nextConnectionId, store`regions
    modifies bus`calls, bus`emitted, log`steps
    ensures store.Valid()
    ensures outcome == (if cabs.FetchFailed? then Aborted(CablesEndpoint)
                        else if sites.FetchFailed? then Aborted(SitesEndpoint) else Completed)
    ensures store.devices == DeviceRows(ds)
    ensures DataOfAll(store.connections) == (if cabs.FetchFailed? then [] else KeptConnections(ResultsOf(cabs)))
    ensures store.regions == (if cabs.FetchFailed? || sites.FetchFailed? then map[] else RegionRows(ResultsOf(sites)))
    ensures log.steps == old(log.steps) + DeviceSteps(ds) + [Committed] + CablesPhase(cabs, sites)
    ensures Sent(bus, old(bus.emitted), old(bus.calls), DeviceEvents(ds) + CablesPhaseEvents(cabs, sites))
  {
    SaveDevices(store, bus, ds, log);
    store.Commit(log);
    outcome := RunCables(store, bus, cabs, sites, log);
    SentThen(bus.listeners, old(bus.emitted), old(bus.calls), DeviceEvents(ds), CablesPhaseEvents(cabs, sites),
             bus.emitted, bus.calls);
  }

  /** A run's trace after earlier steps `t`: its opening, then its devices phase. */
  lemma SyncTraceSteps(devs: Response<UpstreamDevice>, cabs: Response<UpstreamCable>,
                       sites: Response<UpstreamSite>, t: seq<Step>)
    ensures t + SyncTrace(devs, cabs, sites) == t + OPENING + DevicesPhase(devs, cabs, sites)
  {
    AppendAssoc(t, OPENING, DevicesPhase(devs, cabs, sites));
  }

  /** The opening, as the emit, the three deletes and the commit append it. */
  lemma OpeningAppended(s: seq<Step>)
    ensures s + [Emitted(STARTED)] + [Cleared(DevicesTable), Cleared(ConnectionsTable), Cleared(RegionsTable)]
            + [Committed] == s + OPENING
  {
  }

  /** The three deletes of the opening: devices, connections, regions. */
  method ClearMirrored(store: Store, ghost log: Journal)
    requires store.Valid()
    modifies store`devices, store`connections, store`regions, log`steps
    ensures store.Valid()
    ensures store.devices == map[] && store.connections == [] && store.regions == map[]
    ensures log.steps == old(log.steps) + [Cleared(DevicesTable), Cleared(ConnectionsTable), Cleared(RegionsTable)]
  {
    store.ClearDevices(log);
    store.ClearConnections(log);
    store.ClearRegions(log);
  }

  /** The opening of a run: announce it, clear the mirrored tables, commit. */
  method OpenRun(store: Store, bus: EventBus, ghost log: Journal)
    requires store.Valid()
    modifies store`devices, store`connections, store`regions, bus`calls, bus`emitted, log`steps
    ensures store.Valid()
    ensures store.devices == map[] && store.connections == [] && store.regions == map[]
    ensures store.nextConnectionId == old(store.nextConnectionId)
    ensures log.steps == old(log.steps) + OPENING
    ensures Sent(bus, old(bus.emitted), old(bus.calls), [STARTED])
  {
    assert old(bus.emitted) + [] == old(bus.emitted);
    assert old(bus.calls) + [] == old(bus.calls);
    Publish(bus, STARTED, old(bus.emitted), old(bus.calls), [], log);
    ClearMirrored(store, log);
    store.Commit(log);
    OpeningAppended(old(log.steps));
  }

  /**
   * `sync_from_netbox`. Every write, clear, commit and emit the run makes is
   * journalled by the store and the bus themselves, and together they are the
   * run's trace; the bus has emitted exactly the events of that trace, and
   * each event has called the handlers subscribed under its name. Positions
   * are outside the run's frame.
   */
  method SyncFromNetbox(store: Store, bus: EventBus, devs: Response<UpstreamDevice>,
                        cabs: Response<UpstreamCable>, sites: Response<UpstreamSite>, ghost log: Journal)
    returns (outcome: SyncOutcome)
    requires store.Valid()
    modifies store`devices, store`connections, store`nextConnectionId, store`regions
    modifies bus`calls, bus`emitted, log`steps
    ensures store.Valid()
    ensures outcome == OutcomeOf(devs, cabs, sites)
    ensures log.steps == old(log.steps) + SyncTrace(devs, cabs, sites)
    ensures bus.emitted == old(bus.emitted) + SyncEvents(devs, cabs, sites)
    ensures bus.calls == old(bus.calls) + Dispatch(bus.listeners, SyncEvents(devs, cabs, sites))
    ensures store.devices == SyncedDevices(devs)
    ensures DataOfAll(store.connections) == SyncedConnections(devs, cabs)
    ensures store.regions == SyncedRegions(devs, cabs, sites)
  {
    OpenRun(store, bus, log);
    SyncTraceSteps(devs, cabs, sites, old(log.steps));
    DevicesPhaseSteps(devs, cabs, sites, old(log.steps) + OPENING);
    log.steps := log.steps + [Requested(DevicesEndpoint)];
    if devs.FetchFailed? {
      return Aborted(DevicesEndpoint);
    }
    outcome := StoreDevicesAndGoOn(store, bus, ResultsOf(devs), cabs, sites, log);
    SentThen(bus.listeners, old(bus.emitted), old(bus.calls), [STARTED], DeviceEvents(ResultsOf(devs)) + CablesPhaseEvents(cabs, sites),
             bus.emitted, bus.calls);
  }
}
