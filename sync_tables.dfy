/**
 * What a reconciliation run leaves in the tables, stated over the table
 * functions of NetboxSync: one device row per upstream id holding the last
 * record with that id, one connection row per kept cable in upstream order,
 * one region per site id laid out left to right without overlap.
 */
module SyncTables {
  import opened Wrappers
  import opened Models
  import opened Netbox
  import opened Steps
  import opened Events
  import opened Crud
  import opened NetboxSync

  // ---------------------------------------------------------------------------
  // Devices

  /** The upstream device the row under `id` comes from: the last one with that id. */
  lemma {:induction false} DeviceRowOrigin(ds: seq<UpstreamDevice>, id: int) returns (k: nat)
    requires id in DeviceRows(ds)
    ensures k < |ds| && ds[k].id == id && DeviceRows(ds)[id] == NormalizeDevice(ds[k])
    ensures forall j :: k < j < |ds| ==> ds[j].id != id
  {
    var init, d := ds[..|ds| - 1], ds[|ds| - 1];
    if d.id == id {
      k := |ds| - 1;
    } else {
      k := DeviceRowOrigin(init, id);
      assert ds[k] == init[k];
      forall j | k < j < |ds|
        ensures ds[j].id != id
      {
        if j < |init| {
          assert ds[j] == init[j];
        }
      }
    }
  }

  /**
   * The devices table holds a row for every upstream id, under that id, and
   * nothing else: the row under an id is the normalised last upstream record
   * with that id.
   */
  lemma {:induction false} DeviceRowsLastWins(ds: seq<UpstreamDevice>)
    ensures forall k :: 0 <= k < |ds| ==> ds[k].id in DeviceRows(ds)
    ensures DevicesKeyed(DeviceRows(ds))
    ensures forall id :: id in DeviceRows(ds) ==>
      exists k :: 0 <= k < |ds| && ds[k].id == id && (forall j :: k < j < |ds| ==> ds[j].id != id)
                  && DeviceRows(ds)[id] == NormalizeDevice(ds[k])
  {
    if ds != [] {
      var init := ds[..|ds| - 1];
      DeviceRowsLastWins(init);
      forall k | 0 <= k < |ds|
        ensures ds[k].id in DeviceRows(ds)
      {
        if k < |init| {
          assert ds[k] == init[k];
        }
      }
    }
    forall id | id in DeviceRows(ds)
      ensures exists k :: 0 <= k < |ds| && ds[k].id == id && (forall j :: k < j < |ds| ==> ds[j].id != id)
                          && DeviceRows(ds)[id] == NormalizeDevice(ds[k])
    {
      var k := DeviceRowOrigin(ds, id);
    }
  }

  // ---------------------------------------------------------------------------
  // Connections

  /**
   * The connections of a run are exactly the data of the kept cables, in
   * upstream order, and the `k`-th `connection_added` carries the upstream
   * cable whose data is the `k`-th row; there are no more rows than cables.
   */
  lemma {:induction false} KeptConnectionsFromCables(cs: seq<UpstreamCable>)
    ensures |KeptConnections(cs)| <= |cs|
    ensures |CableEvents(cs)| == |KeptConnections(cs)|
    ensures forall k :: 0 <= k < |CableEvents(cs)| ==>
      && CableEvents(cs)[k].name == CONNECTION_ADDED
      && CableEvents(cs)[k].payload.CableRecord?
      && CableEvents(cs)[k].payload.cable in cs
      && NormalizeCable(CableEvents(cs)[k].payload.cable) == Kept(KeptConnections(cs)[k])
    ensures forall j :: 0 <= j < |cs| && NormalizeCable(cs[j]).Kept? ==>
      NormalizeCable(cs[j]).data in KeptConnections(cs)
  {
    if cs != [] {
      var init, c := cs[..|cs| - 1], cs[|cs| - 1];
      var rows, evs := KeptConnections(cs), CableEvents(cs);
      KeptConnectionsFromCables(init);
      assert rows == KeptConnections(init) + KeptRow(c);
      assert evs == CableEvents(init) + CableEvent(c);
      forall k | 0 <= k < |evs|
        ensures evs[k].name == CONNECTION_ADDED && evs[k].payload.CableRecord? && evs[k].payload.cable in cs
                && NormalizeCable(evs[k].payload.cable) == Kept(rows[k])
      {
        if k < |CableEvents(init)| {
          assert evs[k] == CableEvents(init)[k] && rows[k] == KeptConnections(init)[k];
          var i :| 0 <= i < |init| && init[i] == evs[k].payload.cable;
          assert cs[i] == init[i];
        } else {
          assert evs[k] == ConnectionAdded(c) && rows[k] == NormalizeCable(c).data;
        }
      }
      forall j | 0 <= j < |cs| && NormalizeCable(cs[j]).Kept?
        ensures NormalizeCable(cs[j]).data in rows
      {
        if j < |init| {
          assert cs[j] == init[j];
        } else {
          assert rows[|rows| - 1] == NormalizeCable(c).data;
        }
      }
    }
  }

  /**
   * A cable that fails the termination check, or whose connection cannot be
   * built, adds no row, no event and no step: the run goes on with the next.
   */
  lemma DroppedCableLeavesNoTrace(cs: seq<UpstreamCable>, c: UpstreamCable)
    requires !NormalizeCable(c).Kept?
    ensures KeptConnections(cs + [c]) == KeptConnections(cs)
    ensures CableEvents(cs + [c]) == CableEvents(cs)
    ensures CableSteps(cs + [c]) == CableSteps(cs)
  {
    assert (cs + [c])[..|cs|] == cs;
  }

  // ---------------------------------------------------------------------------
  // Regions

  /** The region row a sync stores for the `idx`-th site. */
  function SiteRow(s: UpstreamSite, idx: nat): Region {
    Region(s.id, s.name.GetOr(""), REGION_LEFT + idx * REGION_STRIDE, REGION_TOP,
           REGION_WIDTH, REGION_HEIGHT, SITE_COLOR)
  }

  /** A site's region is stored under the site's id with the site's layout; other rows stay. */
  lemma RegionRowsSnoc(ss: seq<UpstreamSite>)
    requires ss != []
    ensures var s := ss[|ss| - 1];
      && RegionRows(ss).Keys == RegionRows(ss[..|ss| - 1]).Keys + {s.id}
      && RegionRows(ss)[s.id] == SiteRow(s, |ss| - 1)
      && forall id :: id in RegionRows(ss[..|ss| - 1]) && id != s.id ==>
           RegionRows(ss)[id] == RegionRows(ss[..|ss| - 1])[id]
  {
  }

  /** The site the region under `id` is laid out for: the last one with that id. */
  lemma {:induction false} RegionRowOrigin(ss: seq<UpstreamSite>, id: int) returns (k: nat)
    requires id in RegionRows(ss)
    ensures k < |ss| && ss[k].id == id && RegionRows(ss)[id] == SiteRow(ss[k], k)
    ensures forall j :: k < j < |ss| ==> ss[j].id != id
  {
    var init, s := ss[..|ss| - 1], ss[|ss| - 1];
    RegionRowsSnoc(ss);
    if s.id == id {
      k := |ss| - 1;
    } else {
      k := RegionRowOrigin(init, id);
      assert ss[k] == init[k];
      forall j | k < j < |ss|
        ensures ss[j].id != id
      {
        if j < |init| {
          assert ss[j] == init[j];
        }
      }
    }
  }

  /** Every site id is a key of the regions table. */
  lemma {:induction false} RegionRowsCover(ss: seq<UpstreamSite>)
    ensures forall k :: 0 <= k < |ss| ==> ss[k].id in RegionRows(ss)
  {
    if ss != [] {
      var init := ss[..|ss| - 1];
      RegionRowsSnoc(ss);
      RegionRowsCover(init);
      forall k | 0 <= k < |ss|
        ensures ss[k].id in RegionRows(ss)
      {
        if k < |init| {
          assert ss[k] == init[k] && ss[k].id in RegionRows(init);
        }
      }
    }
  }

  /**
   * The regions table holds a region for every site id, under that id, and
   * nothing else: the region under an id is the one laid out for the last
   * site with that id.
   */
  lemma RegionRowsLastWins(ss: seq<UpstreamSite>)
    ensures forall k :: 0 <= k < |ss| ==> ss[k].id in RegionRows(ss)
    ensures RegionsKeyed(RegionRows(ss))
    ensures forall id :: id in RegionRows(ss) ==>
      exists k :: 0 <= k < |ss| && ss[k].id == id && (forall j :: k < j < |ss| ==> ss[j].id != id)
                  && RegionRows(ss)[id] == SiteRow(ss[k], k)
  {
    RegionRowsCover(ss);
    forall id | id in RegionRows(ss)
      ensures RegionRows(ss)[id].id == id
      ensures exists k :: 0 <= k < |ss| && ss[k].id == id && (forall j :: k < j < |ss| ==> ss[j].id != id)
                          && RegionRows(ss)[id] == SiteRow(ss[k], k)
    {
      var k := RegionRowOrigin(ss, id);
    }
  }

  /** Sites further along the upstream list are laid out strictly to the right, with a gap. */
  lemma SiteLayoutApart(j: nat, k: nat)
    requires j < k
    ensures REGION_LEFT + j * REGION_STRIDE + REGION_WIDTH < REGION_LEFT + k * REGION_STRIDE
  {
    assert k * REGION_STRIDE - j * REGION_STRIDE == (k - j) * REGION_STRIDE;
  }

  /**
   * The regions a sync stores sit on one row, all of the same size, and no two
   * of them overlap.
   */
  lemma SyncedRegionsDisjoint(ss: seq<UpstreamSite>)
    ensures var r := RegionRows(ss);
      && (forall id :: id in r ==>
            r[id].y == REGION_TOP && r[id].width == REGION_WIDTH && r[id].height == REGION_HEIGHT)
      && (forall a, b :: a in r && b in r && a != b ==>
            r[a].x + r[a].width < r[b].x || r[b].x + r[b].width < r[a].x)
  {
    var r := RegionRows(ss);
    forall id | id in r
      ensures r[id].y == REGION_TOP && r[id].width == REGION_WIDTH && r[id].height == REGION_HEIGHT
    {
      var k := RegionRowOrigin(ss, id);
    }
    forall a, b | a in r && b in r && a != b
      ensures r[a].x + r[a].width < r[b].x || r[b].x + r[b].width < r[a].x
    {
      var ka := RegionRowOrigin(ss, a);
      var kb := RegionRowOrigin(ss, b);
      if ka < kb {
        SiteLayoutApart(ka, kb);
      } else {
        SiteLayoutApart(kb, ka);
      }
    }
  }

  /** Three sites with distinct ids are laid out at x = 50, 600 and 1150. */
  lemma ThreeSitesLayout(a: UpstreamSite, b: UpstreamSite, c: UpstreamSite)
    requires a.id != b.id && a.id != c.id && b.id != c.id
    ensures var r := RegionRows([a, b, c]);
      && a.id in r && b.id in r && c.id in r
      && r[a.id].x == 50 && r[b.id].x == 600 && r[c.id].x == 1150
  {
    var ss := [a, b, c];
    RegionRowsLastWins(ss);
    assert ss[0] == a && ss[1] == b && ss[2] == c;
    var ka := RegionRowOrigin(ss, a.id);
    var kb := RegionRowOrigin(ss, b.id);
    var kc := RegionRowOrigin(ss, c.id);
    assert ka == 0 && kb == 1 && kc == 2;
  }

  // ---------------------------------------------------------------------------
  // How a run ends, as the listeners see it

  /** No event of `evs` is called `name`. */
  predicate NoneNamed(evs: seq<Event>, name: string) {
    forall k :: 0 <= k < |evs| ==> evs[k].name != name
  }

  lemma NoneNamedAppend(a: seq<Event>, b: seq<Event>, name: string)
    requires NoneNamed(a, name) && NoneNamed(b, name)
    ensures NoneNamed(a + b, name)
  {
    forall k | 0 <= k < |a + b|
      ensures (a + b)[k].name != name
    {
      if k >= |a| {
        assert (a + b)[k] == b[k - |a|];
      }
    }
  }

  /**
   * `evs` never says `sync_started`; if `completed` it ends with its only
   * `sync_completed`, otherwise it has none.
   */
  ghost predicate Announced(evs: seq<Event>, completed: bool) {
    && NoneNamed(evs, SYNC_STARTED)
    && (completed ==> |evs| > 0 && evs[|evs| - 1] == COMPLETED && NoneNamed(evs[..|evs| - 1], SYNC_COMPLETED))
    && (!completed ==> NoneNamed(evs, SYNC_COMPLETED))
  }

  /** Events without announcements in front keep a stream announced. */
  lemma AnnouncedPrepend(body: seq<Event>, evs: seq<Event>, completed: bool)
    requires NoneNamed(body, SYNC_STARTED) && NoneNamed(body, SYNC_COMPLETED)
    requires Announced(evs, completed)
    ensures Announced(body + evs, completed)
  {
    NoneNamedAppend(body, evs, SYNC_STARTED);
    if completed {
      assert (body + evs)[..|body + evs| - 1] == body + evs[..|evs| - 1];
      NoneNamedAppend(body, evs[..|evs| - 1], SYNC_COMPLETED);
    } else {
      NoneNamedAppend(body, evs, SYNC_COMPLETED);
    }
  }

  lemma SitesPhaseAnnounced(sites: Response<UpstreamSite>)
    ensures Announced(SitesPhaseEvents(sites), sites.Fetched?)
  {
    if sites.Fetched? {
      var s := SiteEvents(ResultsOf(sites));
      assert Announced([COMPLETED], true) by {
        assert [COMPLETED][..0] == [];
      }
      AnnouncedPrepend(s, [COMPLETED], true);
    }
  }

  lemma CablesPhaseAnnounced(cabs: Response<UpstreamCable>, sites: Response<UpstreamSite>)
    ensures Announced(CablesPhaseEvents(cabs, sites), cabs.Fetched? && sites.Fetched?)
  {
    if cabs.Fetched? {
      KeptConnectionsFromCables(ResultsOf(cabs));
      SitesPhaseAnnounced(sites);
      AnnouncedPrepend(CableEvents(ResultsOf(cabs)), SitesPhaseEvents(sites), sites.Fetched?);
    }
  }

  lemma DevicesPhaseAnnounced(devs: Response<UpstreamDevice>, cabs: Response<UpstreamCable>,
                              sites: Response<UpstreamSite>)
    ensures Announced(DevicesPhaseEvents(devs, cabs, sites), OutcomeOf(devs, cabs, sites).Completed?)
  {
    if devs.Fetched? {
      CablesPhaseAnnounced(cabs, sites);
      AnnouncedPrepend(DeviceEvents(ResultsOf(devs)), CablesPhaseEvents(cabs, sites), cabs.Fetched? && sites.Fetched?);
    }
  }

  /** `sync_started` in front of an announced stream. */
  lemma StartedThenAnnounced(rest: seq<Event>, completed: bool)
    requires Announced(rest, completed)
    ensures var evs := [STARTED] + rest;
      && evs[0] == STARTED && NoneNamed(evs[1..], SYNC_STARTED)
      && (completed ==> evs[|evs| - 1] == COMPLETED && NoneNamed(evs[..|evs| - 1], SYNC_COMPLETED))
      && (!completed ==> NoneNamed(evs, SYNC_COMPLETED))
  {
    var evs := [STARTED] + rest;
    assert evs[1..] == rest;
    if completed {
      assert evs[..|evs| - 1] == [STARTED] + rest[..|rest| - 1];
      NoneNamedAppend([STARTED], rest[..|rest| - 1], SYNC_COMPLETED);
    } else {
      NoneNamedAppend([STARTED], rest, SYNC_COMPLETED);
    }
  }

  /**
   * The listeners hear `sync_started` first and never again; they hear
   * `sync_completed` exactly when all three fetches succeed, and then as the
   * very last event.
   */
  lemma SyncAnnouncements(devs: Response<UpstreamDevice>, cabs: Response<UpstreamCable>,
                          sites: Response<UpstreamSite>)
    ensures var evs := SyncEvents(devs, cabs, sites);
      && evs[0] == STARTED && NoneNamed(evs[1..], SYNC_STARTED)
      && (OutcomeOf(devs, cabs, sites).Completed? ==>
            evs[|evs| - 1] == COMPLETED && NoneNamed(evs[..|evs| - 1], SYNC_COMPLETED))
      && (OutcomeOf(devs, cabs, sites).Aborted? ==> NoneNamed(evs, SYNC_COMPLETED))
  {
    DevicesPhaseAnnounced(devs, cabs, sites);
    StartedThenAnnounced(DevicesPhaseEvents(devs, cabs, sites), OutcomeOf(devs, cabs, sites).Completed?);
  }

  /**
   * A run that stops at a failed fetch leaves empty every table it had not
   * reached: no devices, connections or regions when the devices fetch fails,
   * no connections or regions when the cables fetch fails, no regions when
   * the sites fetch fails.
   */
  lemma AbortedRunTables(devs: Response<UpstreamDevice>, cabs: Response<UpstreamCable>,
                         sites: Response<UpstreamSite>)
    ensures OutcomeOf(devs, cabs, sites) == Aborted(DevicesEndpoint) ==>
      SyncedDevices(devs) == map[] && SyncedConnections(devs, cabs) == [] && SyncedRegions(devs, cabs, sites) == map[]
      && SyncEvents(devs, cabs, sites) == [STARTED]
    ensures OutcomeOf(devs, cabs, sites) == Aborted(CablesEndpoint) ==>
      SyncedConnections(devs, cabs) == [] && SyncedRegions(devs, cabs, sites) == map[]
    ensures OutcomeOf(devs, cabs, sites).Aborted? ==> SyncedRegions(devs, cabs, sites) == map[]
  {
    if devs.FetchFailed? {
      assert SyncEvents(devs, cabs, sites) == [STARTED] + [];
    }
  }

  // ---------------------------------------------------------------------------
  // A run on a small inventory

  /** The names of a sequence of events, in order. */
  function Names(evs: seq<Event>): (r: seq<string>)
    ensures |r| == |evs| && forall k :: 0 <= k < |evs| ==> r[k] == evs[k].name
  {
    if evs == [] then [] else Names(evs[..|evs| - 1]) + [evs[|evs| - 1].name]
  }

  const SWITCH: UpstreamDevice := UpstreamDevice(1, "sw1", Some(RoleRef(Some("switch"))))
  const ROUTER: UpstreamDevice := UpstreamDevice(2, "r1", None)
  const ETH0: Termination := Termination(Present(PortObject(Some(100), Some("eth0"), Present(DeviceRef(Some("sw1"))))))
  const GE1: Termination := Termination(Present(PortObject(Some(200), Some("ge1"), Present(DeviceRef(Some("r1"))))))
  /** A cable from the switch's eth0 to the router's ge1. */
  const LINKED: UpstreamCable := UpstreamCable(Some(10), Some([ETH0]), Some([GE1]))
  /** A cable with no termination on its B side. */
  const LOOSE: UpstreamCable := UpstreamCable(Some(11), Some([ETH0]), Some([]))
  const DATACENTER: UpstreamSite := UpstreamSite(7, Some("DC"))

  /** Of the two cables only the linked one yields a connection, and one `connection_added`. */
  lemma SmallInventoryCables()
    ensures KeptConnections([LINKED, LOOSE])
            == [ConnectionData(10, Port(Some(100), "eth0", "sw1"), Port(Some(200), "ge1", "r1"))]
    ensures CableEvents([LINKED, LOOSE]) == [ConnectionAdded(LINKED)]
  {
    assert NormalizeCable(LOOSE).Skipped?;
    assert NormalizeCable(LINKED) == Kept(ConnectionData(10, Port(Some(100), "eth0", "sw1"), Port(Some(200), "ge1", "r1")));
    assert [LINKED, LOOSE][..1] == [LINKED];
    assert [LINKED][..0] == [];
    assert KeptConnections([LINKED]) == KeptRow(LINKED);
    assert KeptConnections([LINKED, LOOSE]) == KeptConnections([LINKED]) + KeptRow(LOOSE);
    assert CableEvents([LINKED]) == CableEvent(LINKED);
    assert CableEvents([LINKED, LOOSE]) == CableEvents([LINKED]) + CableEvent(LOOSE);
  }

  /**
   * Two devices (one without a role), one cable between their ports, one cable
   * with no termination on one side, and one site: the run completes, emits
   * `sync_started`, two `device_added`, one `connection_added`, one
   * `region_added` and `sync_completed`.
   */
  lemma SmallInventoryEvents()
    ensures var devs, cabs, sites := Fetched(Some([SWITCH, ROUTER])), Fetched(Some([LINKED, LOOSE])), Fetched(Some([DATACENTER]));
      && OutcomeOf(devs, cabs, sites) == Completed
      && Names(SyncEvents(devs, cabs, sites))
         == [SYNC_STARTED, DEVICE_ADDED, DEVICE_ADDED, CONNECTION_ADDED, REGION_ADDED, SYNC_COMPLETED]
  {
    SmallInventoryCables();
    var evs := SyncEvents(Fetched(Some([SWITCH, ROUTER])), Fetched(Some([LINKED, LOOSE])), Fetched(Some([DATACENTER])));
    assert DeviceEvents([SWITCH, ROUTER]) == [DeviceAdded(SWITCH), DeviceAdded(ROUTER)];
    assert SiteEvents([DATACENTER]) == [RegionAdded(DATACENTER, 0)];
    assert SitesPhaseEvents(Fetched(Some([DATACENTER]))) == [RegionAdded(DATACENTER, 0), COMPLETED];
    assert CablesPhaseEvents(Fetched(Some([LINKED, LOOSE])), Fetched(Some([DATACENTER])))
        == [ConnectionAdded(LINKED), RegionAdded(DATACENTER, 0), COMPLETED];
    assert evs == [STARTED, DeviceAdded(SWITCH), DeviceAdded(ROUTER), ConnectionAdded(LINKED),
                   RegionAdded(DATACENTER, 0), COMPLETED];
  }

  /**
   * The same run stores both devices (the one without a role as "unknown"),
   * the one connection, and the site's region in the first slot.
   */
  lemma SmallInventoryTables()
    ensures var devs, cabs, sites := Fetched(Some([SWITCH, ROUTER])), Fetched(Some([LINKED, LOOSE])), Fetched(Some([DATACENTER]));
      && SyncedDevices(devs) == map[1 := Device(1, "sw1", "switch"), 2 := Device(2, "r1", UNKNOWN_ROLE)]
      && SyncedConnections(devs, cabs)
         == [ConnectionData(10, Port(Some(100), "eth0", "sw1"), Port(Some(200), "ge1", "r1"))]
      && SyncedRegions(devs, cabs, sites) == map[7 := Region(7, "DC", 50, 50, 500, 400, "#ccffcc")]
  {
    SmallInventoryCables();
    assert [SWITCH, ROUTER][..1] == [SWITCH];
    assert [SWITCH][..0] == [];
    assert NormalizeDevice(SWITCH) == Device(1, "sw1", "switch");
    assert NormalizeDevice(ROUTER) == Device(2, "r1", UNKNOWN_ROLE);
    assert DeviceRows([SWITCH]) == map[1 := Device(1, "sw1", "switch")];
    assert DeviceRows([SWITCH, ROUTER]) == DeviceRows([SWITCH])[2 := Device(2, "r1", UNKNOWN_ROLE)];
    assert [DATACENTER][..0] == [];
    RegionRowsSnoc([DATACENTER]);
  }
}
