/**
 * The store behind the application (app/crud.py): four tables and the
 * operations on them. Devices, positions and regions are upserted by key
 * (match and overwrite in place, otherwise insert); connections are only ever
 * inserted, each under a fresh surrogate key. Deletes filter by a condition,
 * so deleting what is not there changes nothing.
 */
module Crud {
  import opened Wrappers
  import opened Models
  import opened Steps

  /** The devices table after `upsert_device(d)`. */
  function UpsertDeviceRows(rows: map<int, Device>, d: Device): (r: map<int, Device>)
    ensures r.Keys == rows.Keys + {d.id}
    ensures r[d.id] == d
    ensures forall id :: id in rows && id != d.id ==> r[id] == rows[id]
  {
    rows[d.id := d]
  }

  /** The positions table after `upsert_position(deviceId, x, y)`. */
  function UpsertPositionRows(rows: map<int, Position>, deviceId: int, x: int, y: int): (r: map<int, Position>)
    ensures r.Keys == rows.Keys + {deviceId}
    ensures r[deviceId] == Position(deviceId, x, y)
    ensures forall id :: id in rows && id != deviceId ==> r[id] == rows[id]
  {
    rows[deviceId := Position(deviceId, x, y)]
  }

  /** The connections after `save_connection(data)` hands out surrogate key `id`. */
  function AppendConnection(rows: seq<Connection>, id: int, data: ConnectionData): (r: seq<Connection>)
    ensures |r| == |rows| + 1 && r[..|rows|] == rows
    ensures DataOf(r[|rows|]) == data && r[|rows|].id == id
  {
    rows + [StoredConnection(id, data)]
  }

  /**
   * `upsert_region` finds a region with the given id, starts overwriting it and
   * then raises KeyError on the missing "color" key.
   */
  predicate UpsertRegionRaises(rows: map<int, Region>, data: RegionData) {
    data.id.Some? && data.id.value in rows && data.color.None?
  }

  /** The key the region written by `upsert_region(data)` ends up under: the given id, or the allocated one. */
  function RegionKey(data: RegionData, newKey: int): int {
    data.id.GetOr(newKey)
  }

  /**
   * The regions table after `upsert_region(data)`, where `newKey` is the key the
   * database allocates when `data` carries no id. On the KeyError path the
   * table is left as it was: no caller commits after the exception, so the
   * fields already overwritten are discarded with the session.
   */
  function UpsertRegionRows(rows: map<int, Region>, data: RegionData, newKey: int): (r: map<int, Region>)
    requires data.id.Some? || newKey !in rows
    ensures UpsertRegionRaises(rows, data) ==> r == rows
    ensures !UpsertRegionRaises(rows, data) ==>
      var k := RegionKey(data, newKey);
      && r.Keys == rows.Keys + {k}
      && (forall id :: id in rows && id != k ==> r[id] == rows[id])
      && r[k].id == k && r[k].name == data.name
      && r[k].x == data.x && r[k].y == data.y && r[k].width == data.width && r[k].height == data.height
      && r[k].color == (if k in rows then data.color.value
                        else data.color.GetOr(DEFAULT_REGION_COLOR))
  {
    if UpsertRegionRaises(rows, data) then rows
    else if data.id.Some? && data.id.value in rows then
      var id := data.id.value;
      rows[id := Region(id, data.name, data.x, data.y, data.width, data.height, data.color.value)]
    else
      var id := RegionKey(data, newKey);
      rows[id := InsertedRegion(id, data)]
  }

  /** A region is overwritten with all six of its fields, whatever it held before. */
  lemma UpsertRegionOverwritesAll(rows: map<int, Region>, data: RegionData, newKey: int)
    requires data.id.Some? && data.id.value in rows && data.color.Some?
    ensures var r := UpsertRegionRows(rows, data, newKey);
            r[data.id.value] == Region(data.id.value, data.name, data.x, data.y,
                                       data.width, data.height, data.color.value)
            && |r| == |rows|
  {
  }

  /** With no id, the region is inserted under the allocated key and nothing is overwritten. */
  lemma UpsertRegionWithoutIdInserts(rows: map<int, Region>, data: RegionData, newKey: int)
    requires data.id.None? && newKey !in rows
    ensures var r := UpsertRegionRows(rows, data, newKey);
            r == rows[newKey := InsertedRegion(newKey, data)] && |r| == |rows| + 1
  {
  }

  /**
   * Upserting a region that carries an id twice leaves the table as upserting
   * it once. The second call finds the region, so without a colour it raises,
   * even when the first call inserted it.
   */
  lemma UpsertRegionIdempotent(rows: map<int, Region>, data: RegionData, key1: int, key2: int)
    requires data.id.Some?
    ensures var once := UpsertRegionRows(rows, data, key1);
            UpsertRegionRows(once, data, key2) == once
    ensures var once := UpsertRegionRows(rows, data, key1);
            UpsertRegionRaises(once, data) <==> data.color.None?
  {
    var once := UpsertRegionRows(rows, data, key1);
    var id := data.id.value;
    if !UpsertRegionRaises(rows, data) {
      assert id in once;
      if data.color.Some? {
        assert once[id] == Region(id, data.name, data.x, data.y, data.width, data.height, data.color.value);
        assert once[id := once[id]] == once;
      }
    }
  }

  /** Without an id the upsert is not idempotent: each call inserts another region. */
  lemma UpsertRegionWithoutIdTwice(rows: map<int, Region>, data: RegionData, key1: int, key2: int)
    requires data.id.None? && key1 !in rows && key2 !in rows && key1 != key2
    ensures |UpsertRegionRows(UpsertRegionRows(rows, data, key1), data, key2)| == |rows| + 2
  {
  }

  /** Afterwards exactly one stored device has the id, and it is the given one. */
  lemma UpsertDeviceSingle(rows: map<int, Device>, d: Device)
    requires DevicesKeyed(rows)
    ensures var r := UpsertDeviceRows(rows, d);
            DevicesKeyed(r) && (forall id :: id in r && r[id].id == d.id ==> r[id] == d)
            && (d.id in rows ==> |r| == |rows|) && (d.id !in rows ==> |r| == |rows| + 1)
  {
  }

  /** A second position is never created for the same device. */
  lemma UpsertPositionSingle(rows: map<int, Position>, deviceId: int, x: int, y: int)
    requires PositionsKeyed(rows)
    ensures var r := UpsertPositionRows(rows, deviceId, x, y);
            PositionsKeyed(r) && (deviceId in rows ==> |r| == |rows|)
  {
  }

  /** `save_connection` inserts even when a row with the same cable id is already stored. */
  lemma SaveConnectionAlwaysInserts(rows: seq<Connection>, next: int, data: ConnectionData)
    requires ConnectionsKeyed(rows, next)
    ensures var r := AppendConnection(rows, next, data);
            |r| == |rows| + 1 && ConnectionsKeyed(r, next + 1)
            && (forall i :: 0 <= i < |rows| && rows[i].cableId == data.cableId ==>
                  r[i].cableId == r[|rows|].cableId && r[i].id != r[|rows|].id)
  {
    var r := AppendConnection(rows, next, data);
    assert forall i :: 0 <= i < |rows| ==> r[i] == rows[i];
  }

  /** Deleting a region that is not there is a no-op. */
  lemma DeleteAbsentRegion(rows: map<int, Region>, id: int)
    requires id !in rows
    ensures rows - {id} == rows
  {
  }

  /** A key that no row uses, so that an inserted row without an id gets a fresh one. */
  ghost function UnusedKeyAbove(keys: set<int>): (b: int)
    ensures forall k :: k in keys ==> k < b
    decreases keys
  {
    if keys == {} then 0
    else
      NonEmptyHasElement(keys);
      var k :| k in keys;
      var b := UnusedKeyAbove(keys - {k});
      assert forall x :: x in keys ==> x == k || x in keys - {k};
      if k + 1 > b then k + 1 else b
  }

  lemma NonEmptyHasElement(s: set<int>)
    requires s != {}
    ensures exists x :: x in s
  {
    if forall x :: x !in s {
      assert false;
    }
  }

  /** The store: one field per table, plus the counter the connection keys come from. */
  class Store {
    var devices: map<int, Device>
    var positions: map<int, Position>
    var connections: seq<Connection>
    var nextConnectionId: int
    var regions: map<int, Region>

    /** Primary keys and unique columns hold. */
    ghost predicate Valid()
      reads this
    {
      && DevicesKeyed(devices)
      && PositionsKeyed(positions)
      && RegionsKeyed(regions)
      && ConnectionsKeyed(connections, nextConnectionId)
    }

    constructor ()
      ensures Valid()
      ensures devices == map[] && positions == map[] && connections == [] && regions == map[]
    {
      devices, positions, connections, regions := map[], map[], [], map[];
      nextConnectionId := 1;
    }

    /** `upsert_device(device_data)`: one row of devices written. */
    method UpsertDevice(d: Device, ghost log: Journal)
      requires Valid()
      modifies this`devices, log`steps
      ensures Valid()
      ensures devices == UpsertDeviceRows(old(devices), d)
      ensures log.steps == old(log.steps) + [Wrote(DevicesTable)]
    {
      devices := UpsertDeviceRows(devices, d);
      log.steps := log.steps + [Wrote(DevicesTable)];
    }

    /** `upsert_position(device_id, x, y)`: one row of positions written. */
    method UpsertPosition(deviceId: int, x: int, y: int, ghost log: Journal)
      requires Valid()
      modifies this`positions, log`steps
      ensures Valid()
      ensures positions == UpsertPositionRows(old(positions), deviceId, x, y)
      ensures log.steps == old(log.steps) + [Wrote(PositionsTable)]
    {
      positions := UpsertPositionRows(positions, deviceId, x, y);
      log.steps := log.steps + [Wrote(PositionsTable)];
    }

    /** `save_connection(conn_data)`: always a new row, under a fresh surrogate key. */
    method SaveConnection(data: ConnectionData, ghost log: Journal)
      requires Valid()
      modifies this`connections, this`nextConnectionId, log`steps
      ensures Valid()
      ensures connections == AppendConnection(old(connections), old(nextConnectionId), data)
      ensures nextConnectionId == old(nextConnectionId) + 1
      ensures log.steps == old(log.steps) + [Wrote(ConnectionsTable)]
    {
      SaveConnectionAlwaysInserts(connections, nextConnectionId, data);
      connections := AppendConnection(connections, nextConnectionId, data);
      nextConnectionId := nextConnectionId + 1;
      log.steps := log.steps + [Wrote(ConnectionsTable)];
    }

    /** `db.query(models.Device).delete()`. */
    method ClearDevices(ghost log: Journal)
      requires Valid()
      modifies this`devices, log`steps
      ensures Valid() && devices == map[]
      ensures log.steps == old(log.steps) + [Cleared(DevicesTable)]
    {
      devices := map[];
      log.steps := log.steps + [Cleared(DevicesTable)];
    }

    /** `db.query(models.Position).delete()`. */
    method ClearPositions(ghost log: Journal)
      requires Valid()
      modifies this`positions, log`steps
      ensures Valid() && positions == map[]
      ensures log.steps == old(log.steps) + [Cleared(PositionsTable)]
    {
      positions := map[];
      log.steps := log.steps + [Cleared(PositionsTable)];
    }

    /** `db.query(models.Connection).delete()`; the surrogate key counter goes on. */
    method ClearConnections(ghost log: Journal)
      requires Valid()
      modifies this`connections, log`steps
      ensures Valid() && connections == []
      ensures log.steps == old(log.steps) + [Cleared(ConnectionsTable)]
    {
      connections := [];
      log.steps := log.steps + [Cleared(ConnectionsTable)];
    }

    /** `db.query(models.Region).delete()`. */
    method ClearRegions(ghost log: Journal)
      requires Valid()
      modifies this`regions, log`steps
      ensures Valid() && regions == map[]
      ensures log.steps == old(log.steps) + [Cleared(RegionsTable)]
    {
      regions := map[];
      log.steps := log.steps + [Cleared(RegionsTable)];
    }

    /** `db.commit()`: the tables as they stand become durable. */
    method Commit(ghost log: Journal)
      modifies log`steps
      ensures log.steps == old(log.steps) + [Committed]
    {
      log.steps := log.steps + [Committed];
    }

    /** `clear_all`: empties positions, connections and devices, in that order, and commits; regions stay. */
    method ClearAll(ghost log: Journal)
      requires Valid()
      modifies this`positions, this`connections, this`devices, log`steps
      ensures Valid()
      ensures positions == map[] && connections == [] && devices == map[]
      ensures log.steps == old(log.steps)
              + [Cleared(PositionsTable), Cleared(ConnectionsTable), Cleared(DevicesTable), Committed]
    {
      ClearPositions(log);
      ClearConnections(log);
      ClearDevices(log);
      Commit(log);
    }

    /** `get_devices`: every stored device. */
    function GetDevices(): (r: set<Device>)
      reads this
      requires Valid()
      ensures forall d :: d in r <==> d.id in devices && devices[d.id] == d
    {
      forall d | d in devices.Values
        ensures d.id in devices && devices[d.id] == d
      {
        ValueHasKey(devices, d);
      }
      devices.Values
    }

    /** `get_positions`: every stored position. */
    function GetPositions(): (r: set<Position>)
      reads this
      requires Valid()
      ensures forall p :: p in r <==> p.deviceId in positions && positions[p.deviceId] == p
    {
      forall p | p in positions.Values
        ensures p.deviceId in positions && positions[p.deviceId] == p
      {
        ValueHasKey(positions, p);
      }
      positions.Values
    }

    /** `get_connections`: every stored connection, in store order. */
    function GetConnections(): (r: seq<Connection>)
      reads this
      ensures |r| == |connections| && forall i :: 0 <= i < |r| ==> r[i] == connections[i]
    {
      connections
    }

    /** `get_regions`: every stored region. */
    function GetRegions(): (r: set<Region>)
      reads this
      requires Valid()
      ensures forall g :: g in r <==> g.id in regions && regions[g.id] == g
    {
      forall g | g in regions.Values
        ensures g.id in regions && regions[g.id] == g
      {
        ValueHasKey(regions, g);
      }
      regions.Values
    }

    /**
     * `upsert_region(region_data)`. `ok` is false when it raises (the region
     * exists and "color" is missing); `id` is the key the region is stored
     * under, allocated when `data` has none. A raising upsert writes no row.
     */
    method UpsertRegion(data: RegionData, ghost log: Journal) returns (ok: bool, id: int)
      requires Valid()
      modifies this`regions, log`steps
      ensures Valid()
      ensures ok == !UpsertRegionRaises(old(regions), data)
      ensures data.id.Some? ==> id == data.id.value
      ensures data.id.None? ==> id !in old(regions)
      ensures regions == UpsertRegionRows(old(regions), data, id)
      ensures log.steps == old(log.steps) + (if ok then [Wrote(RegionsTable)] else [])
    {
      if data.id.Some? {
        id := data.id.value;
      } else {
        ghost var above := UnusedKeyAbove(regions.Keys);
        assert above !in regions;
        id :| id !in regions;
      }
      ok := !UpsertRegionRaises(regions, data);
      regions := UpsertRegionRows(regions, data, id);
      if ok {
        log.steps := log.steps + [Wrote(RegionsTable)];
      }
    }

    /** `delete_region(region_id)`: removes that region only; a no-op when it is absent. */
    method DeleteRegion(id: int, ghost log: Journal)
      requires Valid()
      modifies this`regions, log`steps
      ensures Valid()
      ensures regions == old(regions) - {id}
      ensures log.steps == old(log.steps) + [Wrote(RegionsTable)]
    {
      regions := regions - {id};
      log.steps := log.steps + [Wrote(RegionsTable)];
    }
  }
}
