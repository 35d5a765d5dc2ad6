/**
 * The web layer's own logic: the set of connected websocket clients, the
 * relay between them, the `netbox_updated` broadcast after a sync, the
 * positions map read and written by the frontend (keys are device ids
 * written as decimal strings), the topology view of the stored connections,
 * and the region endpoints.
 */
module Api {
  import opened Wrappers
  import opened Models
  import opened Netbox
  import opened Steps
  import opened Events
  import opened Crud
  import opened NetboxSync
  import opened RegionService
  import SyncTables
  import SyncProperties

  const NETBOX_UPDATED: string := "netbox_updated"
  const STATUS_UPDATED: string := "updated"
  const STATUS_OK: string := "ok"
  const STATUS_DELETED: string := "deleted"

  /** An endpoint's answer: a status, or an exception that reaches the framework (an error response). */
  datatype Reply = Ok(status: string) | Failed

  // ---------------------------------------------------------------------------
  // Websocket clients

  /** The sockets that received something in `ds`. */
  function Recipients(ds: seq<Delivery>): set<Socket> {
    set k | 0 <= k < |ds| :: ds[k].to
  }

  /** No socket receives twice. */
  predicate OnePerSocket(ds: seq<Delivery>) {
    forall i, j :: 0 <= i < j < |ds| ==> ds[i].to != ds[j].to
  }

  /** The frames sent since the outbox held `before`. */
  function SentSince(outbox: seq<Delivery>, before: seq<Delivery>): seq<Delivery>
    requires |before| <= |outbox|
  {
    outbox[|before|..]
  }

  /**
   * The module-level `clients` set and every frame sent to a client so far.
   * Sending to a socket in `down` raises.
   */
  class Hub {
    var clients: set<Socket>
    var outbox: seq<Delivery>

    constructor ()
      ensures clients == {} && outbox == []
    {
      clients, outbox := {}, [];
    }

    /** The websocket is accepted and added to `clients`. */
    method Connect(ws: Socket)
      modifies this`clients
      ensures clients == old(clients) + {ws}
    {
      clients := clients + {ws};
    }

    /** Receiving on `ws` raises (the peer went away): `ws`, and only `ws`, leaves `clients`. */
    method Disconnect(ws: Socket)
      modifies this`clients
      ensures clients == old(clients) - {ws}
    {
      clients := clients - {ws};
    }

    /**
     * `ws` sent `msg`: it goes to every other client, once each, in set order,
     * and never back to `ws`. The first send that raises ends the relay and
     * removes the sender `ws` (not the client that failed); `kept` says
     * whether `ws` is still connected, which is exactly when no other client
     * is down.
     */
    method Relay(ws: Socket, msg: string, down: set<Socket>) returns (kept: bool)
      modifies this`clients, this`outbox
      ensures |old(outbox)| <= |outbox| && outbox[..|old(outbox)|] == old(outbox)
      ensures var sent := SentSince(outbox, old(outbox));
        && OnePerSocket(sent)
        && forall k :: 0 <= k < |sent| ==>
             sent[k].text == msg && sent[k].to != ws && sent[k].to in old(clients) && sent[k].to !in down
      ensures kept <==> (old(clients) - {ws}) * down == {}
      ensures kept ==> clients == old(clients) && Recipients(SentSince(outbox, old(outbox))) == old(clients) - {ws}
      ensures !kept ==> clients == old(clients) - {ws}
    {
      ghost var before := outbox;
      var todo := clients;
      kept := true;
      while todo != {} && kept
        invariant todo <= old(clients)
        invariant |before| <= |outbox| && outbox[..|before|] == before
        invariant OnePerSocket(outbox[|before|..])
        invariant forall k :: |before| <= k < |outbox| ==>
          outbox[k].text == msg && outbox[k].to != ws && outbox[k].to in old(clients) - todo
          && outbox[k].to !in down
        invariant kept ==> clients == old(clients)
        invariant kept ==> Recipients(outbox[|before|..]) == old(clients) - todo - {ws}
        invariant kept ==> (old(clients) - todo - {ws}) * down == {}
        invariant !kept ==> clients == old(clients) - {ws} && (old(clients) - {ws}) * down != {}
        decreases todo
      {
        var c :| c in todo;
        todo := todo - {c};
        if c != ws {
          if c in down {
            assert c in (old(clients) - {ws}) * down;
            clients := clients - {ws};
            kept := false;
          } else {
            ghost var prev := outbox[|before|..];
            outbox := outbox + [Delivery(c, msg)];
            assert outbox[|before|..] == prev + [Delivery(c, msg)];
            assert Recipients(prev + [Delivery(c, msg)]) == Recipients(prev) + {c} by {
              assert forall k :: 0 <= k < |prev| ==> (prev + [Delivery(c, msg)])[k] == prev[k];
              assert (prev + [Delivery(c, msg)])[|prev|] == Delivery(c, msg);
            }
          }
        }
      }
    }

    /**
     * The loop of `update_from_netbox` over `list(clients)`: every client
     * not in `down` receives `netbox_updated` once; a client whose send
     * raises is skipped and the others still receive it; `clients` does not
     * change. Each frame is journalled as it is sent.
     */
    method BroadcastUpdate(down: set<Socket>, ghost log: Journal)
      modifies this`outbox, log`steps
      ensures |old(outbox)| <= |outbox| && outbox[..|old(outbox)|] == old(outbox)
      ensures var sent := SentSince(outbox, old(outbox));
        && OnePerSocket(sent)
        && (forall k :: 0 <= k < |sent| ==> sent[k].text == NETBOX_UPDATED)
        && Recipients(sent) == clients - down
      ensures log.steps == old(log.steps) + SentSteps(SentSince(outbox, old(outbox)))
    {
      ghost var before := outbox;
      var todo := clients;
      while todo != {}
        invariant todo <= clients
        invariant |before| <= |outbox| && outbox[..|before|] == before
        invariant log.steps == old(log.steps) + SentSteps(outbox[|before|..])
        invariant OnePerSocket(outbox[|before|..])
        invariant forall k :: |before| <= k < |outbox| ==>
          outbox[k].text == NETBOX_UPDATED && outbox[k].to in clients - todo
        invariant Recipients(outbox[|before|..]) == clients - todo - down
        decreases todo
      {
        var c :| c in todo;
        todo := todo - {c};
        if c !in down {
          ghost var prev := outbox[|before|..];
          outbox := outbox + [Delivery(c, NETBOX_UPDATED)];
          log.steps := log.steps + [Sent(Delivery(c, NETBOX_UPDATED))];
          assert outbox[|before|..] == prev + [Delivery(c, NETBOX_UPDATED)];
          SentStepsAppend(prev, Delivery(c, NETBOX_UPDATED));
          assert Recipients(prev + [Delivery(c, NETBOX_UPDATED)]) == Recipients(prev) + {c} by {
            assert forall k :: 0 <= k < |prev| ==> (prev + [Delivery(c, NETBOX_UPDATED)])[k] == prev[k];
            assert (prev + [Delivery(c, NETBOX_UPDATED)])[|prev|] == Delivery(c, NETBOX_UPDATED);
          }
        }
        // A client in `down` raises; the error is logged and the loop goes on.
      }
    }
  }

  /**
   * `POST /api/update`: the sync runs to its end first. A fetch that fails
   * raises out of the sync and out of the endpoint, and no client is told
   * anything; otherwise every client not in `down` receives
   * `netbox_updated` and the answer is "updated". The journal shows every
   * step of the sync before the first frame sent.
   */
  method UpdateFromNetbox(store: Store, bus: EventBus, hub: Hub, devs: Response<UpstreamDevice>,
                          cabs: Response<UpstreamCable>, sites: Response<UpstreamSite>, down: set<Socket>,
                          ghost log: Journal)
    returns (reply: Reply)
    requires store.Valid()
    modifies store`devices, store`connections, store`nextConnectionId, store`regions
    modifies bus`calls, bus`emitted, hub`outbox, log`steps
    ensures store.Valid()
    ensures reply == (if OutcomeOf(devs, cabs, sites).Completed? then Ok(STATUS_UPDATED) else Failed)
    ensures bus.emitted == old(bus.emitted) + SyncEvents(devs, cabs, sites)
    ensures bus.calls == old(bus.calls) + Dispatch(bus.listeners, SyncEvents(devs, cabs, sites))
    ensures store.devices == SyncedDevices(devs)
    ensures DataOfAll(store.connections) == SyncedConnections(devs, cabs)
    ensures store.regions == SyncedRegions(devs, cabs, sites)
    ensures |old(hub.outbox)| <= |hub.outbox| && hub.outbox[..|old(hub.outbox)|] == old(hub.outbox)
    ensures log.steps == old(log.steps) + SyncTrace(devs, cabs, sites) + SentSteps(SentSince(hub.outbox, old(hub.outbox)))
    ensures reply.Failed? ==> hub.outbox == old(hub.outbox)
    ensures reply.Ok? ==> var sent := SentSince(hub.outbox, old(hub.outbox));
      && OnePerSocket(sent)
      && (forall k :: 0 <= k < |sent| ==> sent[k].text == NETBOX_UPDATED)
      && Recipients(sent) == hub.clients - down
  {
    var outcome := SyncFromNetbox(store, bus, devs, cabs, sites, log);
    reply := AnnounceUpdate(hub, outcome, down, log);
  }

  /**
   * The rest of `update_from_netbox` once the sync has returned: a sync that
   * raised reaches the framework and nothing is sent; otherwise every client
   * not in `down` is told `netbox_updated` and the answer is "updated".
   */
  method AnnounceUpdate(hub: Hub, outcome: SyncOutcome, down: set<Socket>, ghost log: Journal)
    returns (reply: Reply)
    modifies hub`outbox, log`steps
    ensures reply == (if outcome.Completed? then Ok(STATUS_UPDATED) else Failed)
    ensures |old(hub.outbox)| <= |hub.outbox| && hub.outbox[..|old(hub.outbox)|] == old(hub.outbox)
    ensures log.steps == old(log.steps) + SentSteps(SentSince(hub.outbox, old(hub.outbox)))
    ensures reply.Failed? ==> hub.outbox == old(hub.outbox)
    ensures reply.Ok? ==> var sent := SentSince(hub.outbox, old(hub.outbox));
      && OnePerSocket(sent)
      && (forall k :: 0 <= k < |sent| ==> sent[k].text == NETBOX_UPDATED)
      && Recipients(sent) == hub.clients - down
  {
    if outcome.Aborted? {
      assert SentSince(hub.outbox, old(hub.outbox)) == [];
      return Failed;
    }
    hub.BroadcastUpdate(down, log);
    reply := Ok(STATUS_UPDATED);
  }

  /**
   * In the journal `UpdateFromNetbox` leaves, the steps from the start of the
   * sync on are sends exactly from the first frame on: no frame goes out
   * before the run has taken its last step.
   */
  lemma {:induction false} BroadcastAfterSync(pre: seq<Step>, devs: Response<UpstreamDevice>,
                                              cabs: Response<UpstreamCable>, sites: Response<UpstreamSite>,
                                              ds: seq<Delivery>)
    ensures var run := SyncTrace(devs, cabs, sites);
      var steps := pre + run + SentSteps(ds);
      forall i :: |pre| <= i < |steps| ==> (steps[i].Sent? <==> |pre| + |run| <= i)
  {
    var run := SyncTrace(devs, cabs, sites);
    var steps := pre + run + SentSteps(ds);
    SyncProperties.SyncSendsNothing(devs, cabs, sites);
    forall i | |pre| <= i < |steps|
      ensures steps[i].Sent? <==> |pre| + |run| <= i
    {
      if i < |pre| + |run| {
        assert steps[i] == run[i - |pre|];
      } else {
        assert steps[i] == SentSteps(ds)[i - |pre| - |run|];
      }
    }
  }

  // ---------------------------------------------------------------------------
  // Decimal device ids: `str(id)` and `int(key)`

  predicate IsDigit(c: char) {
    '0' <= c <= '9'
  }

  predicate IsDigits(s: string) {
    |s| > 0 && forall k :: 0 <= k < |s| ==> IsDigit(s[k])
  }

  /** The number a run of decimal digits spells. */
  function DigitsValue(s: string): nat
    requires forall k :: 0 <= k < |s| ==> IsDigit(s[k])
  {
    if s == [] then 0 else DigitsValue(s[..|s| - 1]) * 10 + DigitValue(s[|s| - 1])
  }

  function DigitValue(c: char): nat
    requires IsDigit(c)
  {
    c as int - '0' as int
  }

  /** `int(key)` on an optional sign followed by decimal digits; anything else raises. */
  function ParseInt(s: string): Option<int>
  {
    if |s| > 1 && (s[0] == '-' || s[0] == '+') && IsDigits(s[1..]) then
      var v: int := DigitsValue(s[1..]);
      Some(if s[0] == '-' then -v else v)
    else if IsDigits(s) then Some(DigitsValue(s))
    else None
  }

  function DigitChar(d: nat): char
    requires d < 10
  {
    ('0' as int + d) as char
  }

  /** `str(n)` of a natural number: its decimal digits, no leading zero. */
  function NatToString(n: nat): string
  {
    if n < 10 then [DigitChar(n)] else NatToString(n / 10) + [DigitChar(n % 10)]
  }

  /** `str(n)`: a minus sign for a negative number, then the digits. */
  function IntToString(n: int): string
  {
    if n < 0 then "-" + NatToString(-n) else NatToString(n)
  }

  lemma {:induction false} NatToStringDigits(n: nat)
    ensures IsDigits(NatToString(n)) && DigitsValue(NatToString(n)) == n
  {
    if n >= 10 {
      var s := NatToString(n);
      NatToStringDigits(n / 10);
      assert s[..|s| - 1] == NatToString(n / 10);
    }
  }

  /** Reading back a written id gives the id: `int(str(n)) == n`. */
  lemma IntToStringParses(n: int)
    ensures ParseInt(IntToString(n)) == Some(n)
  {
    if n < 0 {
      NatToStringDigits(-n);
      assert IntToString(n)[1..] == NatToString(-n);
    } else {
      NatToStringDigits(n);
    }
  }

  /** Two ids are written alike only if they are the same id. */
  lemma IntToStringInjective()
    ensures forall a, b :: IntToString(a) == IntToString(b) ==> a == b
  {
    forall a, b | IntToString(a) == IntToString(b)
      ensures a == b
    {
      IntToStringParses(a);
      IntToStringParses(b);
    }
  }

  // ---------------------------------------------------------------------------
  // Positions

  datatype Xy = Xy(x: int, y: int)

  /** One entry of the posted positions map: the key and the coordinates object (a key may be missing). */
  datatype Entry = Entry(key: string, x: Option<int>, y: Option<int>)

  /** `GET /api/positions`: each stored position under its device id written in decimal. */
  function ApiPositions(positions: map<int, Position>): (r: map<string, Xy>)
    requires PositionsKeyed(positions)
    ensures r.Keys == set id | id in positions :: IntToString(id)
    ensures forall id :: id in positions ==>
      IntToString(id) in r && r[IntToString(id)] == Xy(positions[id].x, positions[id].y)
    ensures forall key :: key in r ==> ParseInt(key).Some? && ParseInt(key).value in positions
  {
    IntToStringInjective();
    forall id | id in positions
      ensures ParseInt(IntToString(id)) == Some(id)
    {
      IntToStringParses(id);
    }
    map id | id in positions :: IntToString(positions[id].deviceId) := Xy(positions[id].x, positions[id].y)
  }

  /** The entry has an integer key and both coordinates. */
  predicate ValidEntry(e: Entry) {
    ParseInt(e.key).Some? && e.x.Some? && e.y.Some?
  }

  predicate AllValid(es: seq<Entry>) {
    forall k :: 0 <= k < |es| ==> ValidEntry(es[k])
  }

  /** The positions after one `upsert_position` per entry, in the map's order. */
  function SavedPositions(rows: map<int, Position>, es: seq<Entry>): map<int, Position>
    requires AllValid(es)
  {
    if es == [] then rows
    else
      var e := es[|es| - 1];
      UpsertPositionRows(SavedPositions(rows, es[..|es| - 1]), ParseInt(e.key).value, e.x.value, e.y.value)
  }

  /** The device id entry `e` names. */
  function EntryId(e: Entry): int
    requires ValidEntry(e)
  {
    ParseInt(e.key).value
  }

  /**
   * The device ids for which the entries `es` add a new position row in the
   * session: ids with no stored position. With autoflush off, the query in
   * `upsert_position` does not see these pending rows.
   */
  function PendingInserts(rows: map<int, Position>, es: seq<Entry>): (r: set<int>)
    requires AllValid(es)
    ensures forall id :: id in r ==> id !in rows
  {
    if es == [] then {}
    else
      var id := EntryId(es[|es| - 1]);
      PendingInserts(rows, es[..|es| - 1]) + (if id in rows then {} else {id})
  }

  /**
   * Some entry adds a second new row for a device that already got one from an
   * earlier entry: the commit then violates the unique `device_id` column.
   */
  predicate Clashes(rows: map<int, Position>, es: seq<Entry>)
    requires AllValid(es)
  {
    es != [] && (Clashes(rows, es[..|es| - 1]) || EntryId(es[|es| - 1]) in PendingInserts(rows, es[..|es| - 1]))
  }

  /** Two entries name the same device, and that device has no stored position. */
  predicate RepeatsNewId(rows: map<int, Position>, es: seq<Entry>)
    requires AllValid(es)
  {
    exists i, j :: 0 <= i < j < |es| && EntryId(es[i]) == EntryId(es[j]) && EntryId(es[j]) !in rows
  }

  /** The pending inserts are exactly the named ids without a stored position. */
  lemma {:induction false} PendingInsertsIff(rows: map<int, Position>, es: seq<Entry>, id: int)
    requires AllValid(es)
    ensures id in PendingInserts(rows, es) <==>
      id !in rows && exists i :: 0 <= i < |es| && EntryId(es[i]) == id
  {
    if es != [] {
      var init := es[..|es| - 1];
      assert AllValid(init) by {
        forall k | 0 <= k < |init| ensures ValidEntry(init[k]) { assert init[k] == es[k]; }
      }
      PendingInsertsIff(rows, init, id);
      if id in PendingInserts(rows, es) && id !in PendingInserts(rows, init) {
        assert EntryId(es[|es| - 1]) == id;
      }
      if exists i :: 0 <= i < |es| && EntryId(es[i]) == id {
        var i :| 0 <= i < |es| && EntryId(es[i]) == id;
        if i < |init| {
          assert init[i] == es[i];
        }
      }
      if exists i :: 0 <= i < |init| && EntryId(init[i]) == id {
        var i :| 0 <= i < |init| && EntryId(init[i]) == id;
        assert es[i] == init[i];
      }
    }
  }

  /** The entries before the last are all valid too. */
  lemma AllValidInit(es: seq<Entry>)
    requires AllValid(es) && es != []
    ensures AllValid(es[..|es| - 1])
  {
    var init := es[..|es| - 1];
    forall k | 0 <= k < |init| ensures ValidEntry(init[k]) { assert init[k] == es[k]; }
  }

  /** A clash comes from two entries naming one device without a stored position. */
  lemma {:induction false} ClashesRepeat(rows: map<int, Position>, es: seq<Entry>)
    requires AllValid(es) && Clashes(rows, es)
    ensures RepeatsNewId(rows, es)
  {
    var init := es[..|es| - 1];
    var last := |es| - 1;
    AllValidInit(es);
    if Clashes(rows, init) {
      ClashesRepeat(rows, init);
      var i, j :| 0 <= i < j < |init| && EntryId(init[i]) == EntryId(init[j]) && EntryId(init[j]) !in rows;
      assert es[i] == init[i] && es[j] == init[j];
    } else {
      PendingInsertsIff(rows, init, EntryId(es[last]));
      var i :| 0 <= i < |init| && EntryId(init[i]) == EntryId(es[last]);
      assert es[i] == init[i];
    }
  }

  /** Two entries naming one device without a stored position make a clash. */
  lemma {:induction false} RepeatClashes(rows: map<int, Position>, es: seq<Entry>)
    requires AllValid(es) && RepeatsNewId(rows, es)
    ensures Clashes(rows, es)
  {
    var init := es[..|es| - 1];
    var last := |es| - 1;
    AllValidInit(es);
    var i, j :| 0 <= i < j < |es| && EntryId(es[i]) == EntryId(es[j]) && EntryId(es[j]) !in rows;
    assert es[i] == init[i];
    if j < last {
      assert es[j] == init[j];
      RepeatClashes(rows, init);
    } else {
      PendingInsertsIff(rows, init, EntryId(es[last]));
    }
  }

  /** The save clashes exactly when two entries name one device that has no stored position. */
  lemma ClashesIff(rows: map<int, Position>, es: seq<Entry>)
    requires AllValid(es)
    ensures Clashes(rows, es) <==> RepeatsNewId(rows, es)
  {
    if Clashes(rows, es) {
      ClashesRepeat(rows, es);
    }
    if RepeatsNewId(rows, es) {
      RepeatClashes(rows, es);
    }
  }

  /** All steps are writes to one table. */
  predicate OnlyWrites(steps: seq<Step>, t: Table) {
    forall k :: 0 <= k < |steps| ==> steps[k] == Wrote(t)
  }

  /** `n` writes to table `t`. */
  function Writes(t: Table, n: nat): (r: seq<Step>)
    ensures |r| == n
  {
    if n == 0 then [] else Writes(t, n - 1) + [Wrote(t)]
  }

  lemma {:induction false} WritesOnly(t: Table, n: nat)
    ensures OnlyWrites(Writes(t, n), t)
  {
    if n > 0 {
      WritesOnly(t, n - 1);
    }
  }

  /** Steps `s` followed by writes keep `s` as a prefix, and everything after it is a write. */
  lemma WritesAfter(s: seq<Step>, t: Table, n: nat)
    ensures var all := s + Writes(t, n);
      |s| <= |all| && all[..|s|] == s && OnlyWrites(all[|s|..], t)
  {
    var all := s + Writes(t, n);
    assert all[..|s|] == s;
    assert all[|s|..] == Writes(t, n);
    WritesOnly(t, n);
  }

  /** The saved positions, pending inserts and clash after one more entry. */
  lemma StageStep(rows: map<int, Position>, es: seq<Entry>, i: nat)
    requires i < |es| && AllValid(es[..i]) && ValidEntry(es[i])
    ensures AllValid(es[..i + 1])
    ensures var id := EntryId(es[i]);
      && SavedPositions(rows, es[..i + 1])
         == UpsertPositionRows(SavedPositions(rows, es[..i]), id, es[i].x.value, es[i].y.value)
      && PendingInserts(rows, es[..i + 1])
         == PendingInserts(rows, es[..i]) + (if id in rows then {} else {id})
      && Clashes(rows, es[..i + 1]) == (Clashes(rows, es[..i]) || id in PendingInserts(rows, es[..i]))
  {
    assert es[..i + 1][..i] == es[..i];
    var s := es[..i + 1];
    assert AllValid(s) by {
      forall k | 0 <= k < |s| ensures ValidEntry(s[k]) {
        if k < i { assert s[k] == es[..i][k]; }
      }
    }
  }

  /**
   * One pass of that loop, for entry `i`: `int(dev_id)`, `coord["x"]`,
   * `coord["y"]`, then the upsert. `read` is false when the entry raises, and
   * then nothing is written.
   */
  method StageEntry(store: Store, before: map<int, Position>, es: seq<Entry>, i: nat,
                    pending: set<int>, clash: bool, ghost log: Journal)
    returns (read: bool, pending': set<int>, clash': bool)
    requires i < |es| && AllValid(es[..i]) && store.Valid()
    requires store.positions == SavedPositions(before, es[..i])
    requires pending == PendingInserts(before, es[..i])
    requires clash == Clashes(before, es[..i])
    modifies store`positions, log`steps
    ensures store.Valid()
    ensures read == ValidEntry(es[i])
    ensures !read ==> log.steps == old(log.steps)
    ensures read ==> && AllValid(es[..i + 1])
                     && store.positions == SavedPositions(before, es[..i + 1])
                     && pending' == PendingInserts(before, es[..i + 1])
                     && clash' == Clashes(before, es[..i + 1])
                     && log.steps == old(log.steps) + [Wrote(PositionsTable)]
  {
    var e := es[i];
    var id := ParseInt(e.key);
    if id.None? || e.x.None? || e.y.None? {
      return false, pending, clash;
    }
    StageStep(before, es, i);
    clash' := clash || id.value in pending;
    pending' := if id.value in before then pending else pending + {id.value};
    store.UpsertPosition(id.value, e.x.value, e.y.value, log);
    read := true;
  }

  /**
   * The loop of `api_save_positions`: one `upsert_position` per entry, in the
   * map's order, until a key is not an integer or a coordinate is missing.
   * `valid` says whether every entry was read; then the session holds the
   * saved positions and `clash` says whether the commit will raise.
   */
  method StageEntries(store: Store, es: seq<Entry>, ghost log: Journal) returns (valid: bool, clash: bool)
    requires store.Valid()
    modifies store`positions, log`steps
    ensures store.Valid()
    ensures valid == AllValid(es)
    ensures valid ==> store.positions == SavedPositions(old(store.positions), es)
    ensures valid ==> clash == Clashes(old(store.positions), es)
    ensures valid ==> log.steps == old(log.steps) + Writes(PositionsTable, |es|)
    ensures |old(log.steps)| <= |log.steps| && log.steps[..|old(log.steps)|] == old(log.steps)
    ensures OnlyWrites(log.steps[|old(log.steps)|..], PositionsTable)
  {
    var before := store.positions;
    var pending: set<int> := {};
    clash := false;
    var i := 0;
    while i < |es|
      invariant 0 <= i <= |es| && store.Valid()
      invariant AllValid(es[..i])
      invariant store.positions == SavedPositions(before, es[..i])
      invariant pending == PendingInserts(before, es[..i])
      invariant clash == Clashes(before, es[..i])
      invariant log.steps == old(log.steps) + Writes(PositionsTable, i)
    {
      var read;
      read, pending, clash := StageEntry(store, before, es, i, pending, clash, log);
      if !read {
        WritesAfter(old(log.steps), PositionsTable, i);
        return false, clash;
      }
      AppendAssoc(old(log.steps), Writes(PositionsTable, i), [Wrote(PositionsTable)]);
      i := i + 1;
    }
    assert es[..i] == es;
    WritesAfter(old(log.steps), PositionsTable, i);
    valid := true;
  }

  /**
   * `POST /api/positions`: one upsert per entry, then a single commit. A key
   * that is not an integer or a missing coordinate raises before the commit;
   * two entries that both insert a row for one device make the commit raise.
   * Either way the session closes without a commit and the positions stay as
   * they were. Only a successful save commits.
   */
  method ApiSavePositions(store: Store, es: seq<Entry>, ghost log: Journal) returns (reply: Reply)
    requires store.Valid()
    modifies store`positions, log`steps
    ensures store.Valid()
    ensures reply == (if AllValid(es) && !Clashes(old(store.positions), es) then Ok(STATUS_OK) else Failed)
    ensures reply.Ok? ==> store.positions == SavedPositions(old(store.positions), es)
    ensures reply.Failed? ==> store.positions == old(store.positions)
    ensures |old(log.steps)| <= |log.steps| && log.steps[..|old(log.steps)|] == old(log.steps)
    ensures reply.Ok? ==> log.steps == old(log.steps) + Writes(PositionsTable, |es|) + [Committed]
    ensures reply.Failed? ==> OnlyWrites(log.steps[|old(log.steps)|..], PositionsTable)
  {
    var before := store.positions;
    var valid, clash := StageEntries(store, es, log);
    if !valid || clash {
      // An entry raised, or the commit raised on the unique `device_id`:
      // the session closes and rolls back.
      store.positions := before;
      return Failed;
    }
    store.Commit(log);
    reply := Ok(STATUS_OK);
  }

  /**
   * The device id of entry `i` holds that entry's coordinates after the save,
   * unless a later entry names the same id.
   */
  lemma {:induction false} SavedPositionsLastWins(rows: map<int, Position>, es: seq<Entry>, i: nat)
    requires AllValid(es) && i < |es|
    requires forall j :: i < j < |es| ==> ParseInt(es[j].key) != ParseInt(es[i].key)
    ensures var id := ParseInt(es[i].key).value;
      id in SavedPositions(rows, es) && SavedPositions(rows, es)[id] == Position(id, es[i].x.value, es[i].y.value)
  {
    var init := es[..|es| - 1];
    if i < |init| {
      assert es[i] == init[i];
      forall j | i < j < |init|
        ensures ParseInt(init[j].key) != ParseInt(init[i].key)
      {
        assert init[j] == es[j];
      }
      SavedPositionsLastWins(rows, init, i);
    }
  }

  /**
   * Round trip: after a save that commits, with keys written as `str(id)`,
   * the positions read back hold each key with the coordinates saved under it
   * (the last ones, if the map repeats an id that already had a position).
   */
  lemma SaveThenRead(rows: map<int, Position>, es: seq<Entry>, i: nat)
    requires PositionsKeyed(rows) && AllValid(es) && i < |es|
    requires !Clashes(rows, es)
    requires es[i].key == IntToString(ParseInt(es[i].key).value)
    requires forall j :: i < j < |es| ==> ParseInt(es[j].key) != ParseInt(es[i].key)
    ensures PositionsKeyed(SavedPositions(rows, es))
    ensures var read := ApiPositions(SavedPositions(rows, es));
      es[i].key in read && read[es[i].key] == Xy(es[i].x.value, es[i].y.value)
  {
    SavedPositionsKeyed(rows, es);
    SavedPositionsLastWins(rows, es, i);
  }

  /** Saving positions keeps one position per device, under the device's id. */
  lemma {:induction false} SavedPositionsKeyed(rows: map<int, Position>, es: seq<Entry>)
    requires PositionsKeyed(rows) && AllValid(es)
    ensures PositionsKeyed(SavedPositions(rows, es))
  {
    if es != [] {
      SavedPositionsKeyed(rows, es[..|es| - 1]);
    }
  }

  // ---------------------------------------------------------------------------
  // Topology

  /** A port as the topology shows it: no port id. */
  datatype PortView = PortView(device: string, name: string)

  datatype Link = Link(cableId: int, portA: PortView, portB: PortView)

  function PortViewOf(p: Port): PortView {
    PortView(p.device, p.name)
  }

  function LinkOf(c: Connection): Link {
    Link(c.cableId, PortViewOf(c.portA), PortViewOf(c.portB))
  }

  /** `GET /api/topology`: one link per stored connection, in store order. */
  function ApiTopology(cs: seq<Connection>): (r: seq<Link>)
    ensures |r| == |cs|
    ensures forall k :: 0 <= k < |cs| ==>
      r[k] == Link(cs[k].cableId, PortView(cs[k].portA.device, cs[k].portA.name),
                   PortView(cs[k].portB.device, cs[k].portB.name))
  {
    seq(|cs|, k requires 0 <= k < |cs| => LinkOf(cs[k]))
  }

  /**
   * The topology neither shows surrogate keys nor port ids: connections that
   * agree on cable ids, port names and device names show the same links.
   */
  lemma TopologyHidesIds(a: seq<Connection>, b: seq<Connection>)
    requires |a| == |b|
    requires forall k :: 0 <= k < |a| ==>
      && a[k].cableId == b[k].cableId
      && a[k].portA.name == b[k].portA.name && a[k].portA.device == b[k].portA.device
      && a[k].portB.name == b[k].portB.name && a[k].portB.device == b[k].portB.device
    ensures ApiTopology(a) == ApiTopology(b)
  {
  }

  /**
   * After a sync, the topology has one link per `connection_added`, in the
   * same order, showing that cable's id and the names read from its first
   * terminations.
   */
  lemma TopologyAfterSync(conns: seq<Connection>, cs: seq<UpstreamCable>)
    requires DataOfAll(conns) == KeptConnections(cs)
    ensures |ApiTopology(conns)| == |CableEvents(cs)|
    ensures forall k :: 0 <= k < |conns| ==>
      CableEvents(cs)[k].payload.CableRecord? &&
      var cable := CableEvents(cs)[k].payload.cable;
      && cable.id.Some? && HasTermination(cable.aTerminations) && HasTermination(cable.bTerminations)
      && PortOf(cable.aTerminations.value[0].obj).Some? && PortOf(cable.bTerminations.value[0].obj).Some?
      && ApiTopology(conns)[k].cableId == cable.id.value
      && ApiTopology(conns)[k].portA == PortViewOf(PortOf(cable.aTerminations.value[0].obj).value)
      && ApiTopology(conns)[k].portB == PortViewOf(PortOf(cable.bTerminations.value[0].obj).value)
  {
    SyncTables.KeptConnectionsFromCables(cs);
    forall k | 0 <= k < |conns|
      ensures CableEvents(cs)[k].payload.CableRecord? &&
        var cable := CableEvents(cs)[k].payload.cable;
        && cable.id.Some? && HasTermination(cable.aTerminations) && HasTermination(cable.bTerminations)
        && PortOf(cable.aTerminations.value[0].obj).Some? && PortOf(cable.bTerminations.value[0].obj).Some?
        && ApiTopology(conns)[k].cableId == cable.id.value
        && ApiTopology(conns)[k].portA == PortViewOf(PortOf(cable.aTerminations.value[0].obj).value)
        && ApiTopology(conns)[k].portB == PortViewOf(PortOf(cable.bTerminations.value[0].obj).value)
    {
      var cable := CableEvents(cs)[k].payload.cable;
      assert DataOf(conns[k]) == KeptConnections(cs)[k];
      assert NormalizeCable(cable) == Kept(DataOf(conns[k]));
    }
  }

  // ---------------------------------------------------------------------------
  // Regions

  /**
   * `POST /api/regions`: a body without a colour fails request validation and
   * nothing happens; otherwise the upsert cannot raise, the region is saved
   * (and `region_updated` emitted) and the answer is "ok". The websocket
   * notification after it reaches no client.
   */
  method ApiPostRegion(store: Store, bus: EventBus, data: RegionData, ghost log: Journal)
    returns (reply: Reply, ghost key: int)
    requires store.Valid()
    modifies store`regions, bus`calls, bus`emitted, log`steps
    ensures store.Valid()
    ensures reply == (if data.color.Some? then Ok(STATUS_OK) else Failed)
    ensures data.color.None? ==>
      && store.regions == old(store.regions) && bus.emitted == old(bus.emitted) && bus.calls == old(bus.calls)
      && log.steps == old(log.steps)
    ensures data.color.Some? ==>
      && (data.id.Some? ==> key == data.id.value)
      && (data.id.None? ==> key !in old(store.regions))
      && store.regions == UpsertRegionRows(old(store.regions), data, key)
      && bus.emitted == old(bus.emitted) + [RegionUpdated(data)]
      && bus.calls == old(bus.calls) + Dispatch(bus.listeners, [RegionUpdated(data)])
      && log.steps == old(log.steps) + [Wrote(RegionsTable), Committed, Emitted(RegionUpdated(data))]
  {
    if data.color.None? {
      // Rejected by the request model before the handler runs.
      return Failed, 0;
    }
    var ok;
    ok, key := SaveRegion(store, bus, data, log);
    reply := Ok(STATUS_OK);
  }

  /**
   * `DELETE /api/regions/{id}` as written: the delete is issued but never
   * committed, and closing the session rolls it back, so an existing region
   * stays although the answer is "deleted".
   */
  method ApiDeleteRegionAsWritten(store: Store, id: int, ghost log: Journal) returns (reply: Reply)
    requires store.Valid()
    modifies store`regions, log`steps
    ensures store.Valid()
    ensures reply == Ok(STATUS_DELETED)
    ensures id in old(store.regions) ==> id in store.regions
    ensures store.regions == old(store.regions)
    ensures log.steps == old(log.steps) + [Wrote(RegionsTable)]
  {
    var committed := store.regions;
    store.DeleteRegion(id, log);
    // The session closes without a commit: the delete is rolled back.
    store.regions := committed;
    reply := Ok(STATUS_DELETED);
  }

  /**
   * `DELETE /api/regions/{id}` with the commit it evidently intends: the
   * region with that id is gone, all others stay, and the answer is
   * "deleted" whether or not it existed.
   */
  method ApiDeleteRegion(store: Store, id: int, ghost log: Journal) returns (reply: Reply)
    requires store.Valid()
    modifies store`regions, log`steps
    ensures store.Valid()
    ensures reply == Ok(STATUS_DELETED)
    ensures id !in store.regions
    ensures forall other :: other != id ==>
      (other in store.regions <==> other in old(store.regions))
      && (other in store.regions ==> store.regions[other] == old(store.regions)[other])
    ensures log.steps == old(log.steps) + [Wrote(RegionsTable), Committed]
  {
    store.DeleteRegion(id, log);
    store.Commit(log);
    reply := Ok(STATUS_DELETED);
  }
}
