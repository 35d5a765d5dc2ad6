/**
 * The region service: saving a region goes through the store's upsert, a
 * commit, and one `region_updated` event carrying the data as given; listing
 * regions is the store's read.
 */
module RegionService {
  import opened Wrappers
  import opened Models
  import opened Steps
  import opened Events
  import opened Crud

  const REGION_UPDATED: string := "region_updated"

  /** The event `save_region` emits for `data`. */
  function RegionUpdated(data: RegionData): Event {
    Event(REGION_UPDATED, RegionRecord(data))
  }

  /**
   * `save_region(region_data)`. The regions become exactly what
   * `upsert_region` makes of them (`key` is the key the region is stored
   * under); then, after the commit, one `region_updated` goes out with the
   * data as given. When the upsert raises (an existing region and no colour)
   * the exception leaves before the commit and the emit: nothing is stored
   * and nothing is emitted. Devices, positions and connections never change.
   * The journal records the write, the commit and the emit, in that order.
   */
  method SaveRegion(store: Store, bus: EventBus, data: RegionData, ghost log: Journal)
    returns (ok: bool, ghost key: int)
    requires store.Valid()
    modifies store`regions, bus`calls, bus`emitted, log`steps
    ensures store.Valid()
    ensures ok == !UpsertRegionRaises(old(store.regions), data)
    ensures data.id.Some? ==> key == data.id.value
    ensures data.id.None? ==> key !in old(store.regions)
    ensures ok ==> store.regions == UpsertRegionRows(old(store.regions), data, key)
    ensures !ok ==> store.regions == old(store.regions)
    ensures ok ==> && bus.emitted == old(bus.emitted) + [RegionUpdated(data)]
                   && bus.calls == old(bus.calls) + Dispatch(bus.listeners, [RegionUpdated(data)])
    ensures !ok ==> bus.emitted == old(bus.emitted) && bus.calls == old(bus.calls)
    ensures store.devices == old(store.devices) && store.positions == old(store.positions)
    ensures store.connections == old(store.connections)
    ensures log.steps == old(log.steps)
            + (if ok then [Wrote(RegionsTable), Committed, Emitted(RegionUpdated(data))] else [])
  {
    var id;
    ok, id := store.UpsertRegion(data, log);
    key := id;
    if ok {
      // The commit makes the upsert durable; then the event goes out.
      store.Commit(log);
      assert Dispatch(bus.listeners, [RegionUpdated(data)])
             == Invocations(HandlersOf(bus.listeners, REGION_UPDATED), RegionUpdated(data)) by {
        DispatchSnoc(bus.listeners, [], RegionUpdated(data));
      }
      bus.Emit(REGION_UPDATED, RegionRecord(data), log);
    } else {
      assert log.steps == old(log.steps) + [];
    }
  }

  /** `list_regions`: the store's regions, each once, as `get_regions` reads them. */
  function ListRegions(store: Store): (r: set<Region>)
    reads store
    requires store.Valid()
    ensures forall g :: g in r <==> g.id in store.regions && store.regions[g.id] == g
  {
    store.GetRegions()
  }

  /**
   * A region saved with an explicit id and a colour is listed afterwards with
   * exactly the saved fields, whether it was there before or not.
   */
  lemma SavedRegionListed(rows: map<int, Region>, data: RegionData, key: int)
    requires data.id.Some? && data.color.Some? && key == data.id.value
    ensures var r := UpsertRegionRows(rows, data, key);
      && !UpsertRegionRaises(rows, data)
      && key in r
      && r[key] == Region(key, data.name, data.x, data.y, data.width, data.height, data.color.value)
  {
    if key !in rows {
      assert UpsertRegionRows(rows, data, key)[key] == InsertedRegion(key, data);
    }
  }
}
