/**
 * The four persisted entities (app/models.py): devices, positions, connections
 * and regions. Coordinates and geometry are stored and returned verbatim by the
 * application, so they are modelled as opaque integers.
 */
module Models {
  import opened Wrappers

  /** Column default of `Region.color`, used when a region is inserted without a colour. */
  const DEFAULT_REGION_COLOR: string := "#b8b8b853"

  /** A device; `id` is the upstream id and the primary key. */
  datatype Device = Device(id: int, name: string, role: string)

  /** The canvas position of one device; `deviceId` is unique. */
  datatype Position = Position(deviceId: int, x: int, y: int)

  /** One end of a cable: port id (may be NULL), port name and owning device's name. */
  datatype Port = Port(id: Option<int>, name: string, device: string)

  /** A connection row before the store gives it its surrogate primary key. */
  datatype ConnectionData = ConnectionData(cableId: int, portA: Port, portB: Port)

  /** A stored connection: surrogate `id`, upstream `cableId` (not unique). */
  datatype Connection = Connection(id: int, cableId: int, portA: Port, portB: Port)

  /** A region; name and geometry are NOT NULL, `color` always holds a value once stored. */
  datatype Region = Region(id: int, name: string, x: int, y: int, width: int, height: int, color: string)

  /**
   * The dictionary given to `upsert_region`: `id` may be absent (a new region
   * whose key the database allocates) and so may `color`.
   */
  datatype RegionData = RegionData(id: Option<int>, name: string, x: int, y: int,
                                   width: int, height: int, color: Option<string>)

  /** The row a connection becomes once it is given surrogate key `id`. */
  function StoredConnection(id: int, data: ConnectionData): Connection {
    Connection(id, data.cableId, data.portA, data.portB)
  }

  /** What a stored connection was made from. */
  function DataOf(c: Connection): ConnectionData {
    ConnectionData(c.cableId, c.portA, c.portB)
  }

  /** The row `Region(**data)` inserts under key `id`: the colour falls back to the column default. */
  function InsertedRegion(id: int, data: RegionData): (r: Region)
    ensures r.id == id && r.name == data.name
    ensures r.x == data.x && r.y == data.y && r.width == data.width && r.height == data.height
    ensures data.color.None? ==> r.color == DEFAULT_REGION_COLOR
    ensures data.color.Some? ==> r.color == data.color.value
  {
    Region(id, data.name, data.x, data.y, data.width, data.height, data.color.GetOr(DEFAULT_REGION_COLOR))
  }

  // Primary keys and unique columns. A table is a map from its key to its rows;
  // each predicate says that every row sits under its own key. A map holds one
  // row per key, so two rows with equal keys are the same row: that is the
  // column's uniqueness.

  /** Device ids are the primary key: every device row sits under its own `id`. */
  ghost predicate DevicesKeyed(t: map<int, Device>) {
    forall id :: id in t ==> t[id].id == id
  }

  /** `device_id` is unique: at most one position per device, stored under that device's id. */
  ghost predicate PositionsKeyed(t: map<int, Position>) {
    forall id :: id in t ==> t[id].deviceId == id
  }

  /** Region ids are the primary key: every region row sits under its own `id`. */
  ghost predicate RegionsKeyed(t: map<int, Region>) {
    forall id :: id in t ==> t[id].id == id
  }

  /** Surrogate keys of connections are pairwise distinct and below the next key to hand out. */
  ghost predicate ConnectionsKeyed(cs: seq<Connection>, next: int) {
    && (forall i :: 0 <= i < |cs| ==> cs[i].id < next)
    && (forall i, j :: 0 <= i < j < |cs| ==> cs[i].id != cs[j].id)
  }

  /** Every value of a map is stored under some key. */
  lemma ValueHasKey<V>(m: map<int, V>, v: V)
    requires v in m.Values
    ensures exists k :: k in m && m[k] == v
  {
    if forall k :: k in m ==> m[k] != v {
      assert false;
    }
  }

  /**
   * `cableId` carries no uniqueness: a row stored under the next surrogate key
   * keeps the table keyed whatever its cable id, even one a stored row
   * already has.
   */
  lemma SharedCableIdAllowed(cs: seq<Connection>, next: int, data: ConnectionData)
    requires ConnectionsKeyed(cs, next)
    ensures ConnectionsKeyed(cs + [StoredConnection(next, data)], next + 1)
  {
  }
}
