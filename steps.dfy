/**
 * What a request does, as one ordered log: the events it emits, the table
 * rows it writes or clears, its commits, its requests to NetBox and the
 * frames it sends to websocket clients. The
 * store, the event bus and the reconciliation run each append their own
 * steps to a shared `Journal`, so that the order of writes and emits can be
 * stated about the operations themselves.
 */
module Steps {
  import opened Models
  import opened Netbox

  /** The positional arguments `emit` hands on to the handlers in this application. */
  datatype Payload =
    | NoPayload
    | DeviceRecord(device: UpstreamDevice)
    | CableRecord(cable: UpstreamCable)
    | RegionRecord(region: RegionData)

  datatype Event = Event(name: string, payload: Payload)

  /** The four tables of app/models.py. */
  datatype Table = DevicesTable | PositionsTable | ConnectionsTable | RegionsTable

  /** The three NetBox lists the reconciliation run fetches. */
  datatype Endpoint = DevicesEndpoint | CablesEndpoint | SitesEndpoint

  /** A connected websocket. */
  datatype Socket = Socket(id: nat)

  /** One text frame sent to one socket. */
  datatype Delivery = Delivery(to: Socket, text: string)

  /**
   * One observable step: an emit, a bulk delete of a table, a commit, a fetch
   * request, one row of a table inserted, updated or deleted, or one frame
   * sent to a websocket.
   */
  datatype Step =
    | Emitted(event: Event)
    | Cleared(table: Table)
    | Committed
    | Requested(endpoint: Endpoint)
    | Wrote(table: Table)
    | Sent(delivery: Delivery)

  /** The steps that send the frames `ds`, in order. */
  function SentSteps(ds: seq<Delivery>): seq<Step> {
    seq(|ds|, k requires 0 <= k < |ds| => Sent(ds[k]))
  }

  /** Sending one more frame journals one more step. */
  lemma SentStepsAppend(ds: seq<Delivery>, d: Delivery)
    ensures SentSteps(ds + [d]) == SentSteps(ds) + [Sent(d)]
  {
  }

  /** The shared log the operations append their steps to. */
  class Journal {
    ghost var steps: seq<Step>

    constructor ()
      ensures steps == []
    {
      steps := [];
    }
  }
}
