/**
 * What a reconciliation run promises, stated over its specification
 * (`SyncTrace`, `SyncEvents` and the tables in NetboxSync): the bus sees
 * exactly the events of the trace, the run opens with `sync_started` and the
 * clears, ends with `sync_completed` right after the last commit, and never
 * touches positions. What the run leaves in the tables is in SyncTables.
 */
module SyncProperties {
  import opened Wrappers
  import opened Models
  import opened Netbox
  import opened Steps
  import opened Events
  import opened Crud
  import opened NetboxSync

  // ---------------------------------------------------------------------------
  // The events of a trace are the events the run emits

  /** The events of one more step. */
  lemma EventsOfSnoc(trace: seq<Step>, s: Step)
    ensures EventsOf(trace + [s]) == EventsOf(trace) + StepEvents(s)
  {
    assert (trace + [s])[..|trace|] == trace;
  }

  /** The events of two stretches of a run, one after the other. */
  lemma {:induction false} EventsOfAppend(a: seq<Step>, b: seq<Step>)
    ensures EventsOf(a + b) == EventsOf(a) + EventsOf(b)
  {
    if b == [] {
      assert a + b == a;
    } else {
      var init, s := b[..|b| - 1], b[|b| - 1];
      assert b == init + [s];
      AppendAssoc(a, init, [s]);
      EventsOfAppend(a, init);
      EventsOfSnoc(a + init, s);
      EventsOfSnoc(init, s);
      AppendAssoc(EventsOf(a), EventsOf(init), StepEvents(s));
    }
  }

  /** A row written and then announced yields just the announcement. */
  lemma WriteThenEmit(t: Table, e: Event)
    ensures EventsOf([Wrote(t), Emitted(e)]) == [e]
  {
    EventsOfSnoc([Wrote(t)], Emitted(e));
    EventsOfSnoc([], Wrote(t));
    assert [] + [Wrote(t)] == [Wrote(t)];
  }

  /** One more device, one more `device_added` at the end. */
  lemma DeviceEventsSnoc(ds: seq<UpstreamDevice>)
    requires ds != []
    ensures DeviceEvents(ds) == DeviceEvents(ds[..|ds| - 1]) + [DeviceAdded(ds[|ds| - 1])]
  {
    var init := ds[..|ds| - 1];
    assert forall k :: 0 <= k < |init| ==> DeviceEvents(ds)[k] == DeviceEvents(init)[k];
  }

  /** One more site, one more `region_added` at the end, laid out at the next slot. */
  lemma SiteEventsSnoc(ss: seq<UpstreamSite>)
    requires ss != []
    ensures SiteEvents(ss) == SiteEvents(ss[..|ss| - 1]) + [RegionAdded(ss[|ss| - 1], |ss| - 1)]
  {
    var init := ss[..|ss| - 1];
    assert forall k :: 0 <= k < |init| ==> SiteEvents(ss)[k] == SiteEvents(init)[k];
  }

  /** The devices loop emits one `device_added` per device, in upstream order, and nothing else. */
  lemma {:induction false} DeviceStepsEvents(ds: seq<UpstreamDevice>)
    ensures EventsOf(DeviceSteps(ds)) == DeviceEvents(ds)
  {
    if ds != [] {
      var init, d := ds[..|ds| - 1], ds[|ds| - 1];
      DeviceStepsEvents(init);
      EventsOfAppend(DeviceSteps(init), [Wrote(DevicesTable), Emitted(DeviceAdded(d))]);
      WriteThenEmit(DevicesTable, DeviceAdded(d));
      DeviceEventsSnoc(ds);
    }
  }

  /** The cables loop emits one `connection_added` per kept cable, in upstream order, and nothing else. */
  lemma {:induction false} CableStepsEvents(cs: seq<UpstreamCable>)
    ensures EventsOf(CableSteps(cs)) == CableEvents(cs)
  {
    if cs != [] {
      var init, c := cs[..|cs| - 1], cs[|cs| - 1];
      CableStepsEvents(init);
      EventsOfAppend(CableSteps(init), CableStep(c));
      if NormalizeCable(c).Kept? {
        WriteThenEmit(ConnectionsTable, ConnectionAdded(c));
      }
    }
  }

  /** The sites loop emits one `region_added` per site, in upstream order, and nothing else. */
  lemma {:induction false} SiteStepsEvents(ss: seq<UpstreamSite>)
    ensures EventsOf(SiteSteps(ss)) == SiteEvents(ss)
  {
    if ss != [] {
      var init, s := ss[..|ss| - 1], ss[|ss| - 1];
      SiteStepsEvents(init);
      EventsOfAppend(SiteSteps(init), [Wrote(RegionsTable), Emitted(RegionAdded(s, |ss| - 1))]);
      WriteThenEmit(RegionsTable, RegionAdded(s, |ss| - 1));
      SiteEventsSnoc(ss);
    }
  }

  lemma SingleQuietStep(s: Step)
    requires !s.Emitted?
    ensures EventsOf([s]) == []
  {
    EventsOfSnoc([], s);
    assert [] + [s] == [s];
  }

  /** A phase: its request, its loop, a commit, and what follows; only the loop and what follows emit. */
  lemma PhaseEvents(req: Step, steps: seq<Step>, rest: seq<Step>)
    requires !req.Emitted?
    ensures EventsOf([req] + (steps + [Committed] + rest)) == EventsOf(steps) + EventsOf(rest)
  {
    SingleQuietStep(req);
    SingleQuietStep(Committed);
    EventsOfAppend([req], steps + [Committed] + rest);
    EventsOfAppend(steps + [Committed], rest);
    EventsOfAppend(steps, [Committed]);
    assert EventsOf(steps) + [] == EventsOf(steps);
    assert [] + (EventsOf(steps) + EventsOf(rest)) == EventsOf(steps) + EventsOf(rest);
  }

  lemma SitesPhaseEventsOf(sites: Response<UpstreamSite>)
    ensures EventsOf(SitesPhase(sites)) == SitesPhaseEvents(sites)
  {
    if sites.Fetched? {
      PhaseEvents(Requested(SitesEndpoint), SiteSteps(ResultsOf(sites)), [Emitted(COMPLETED)]);
      SiteStepsEvents(ResultsOf(sites));
      EventsOfSnoc([], Emitted(COMPLETED));
      assert [] + [Emitted(COMPLETED)] == [Emitted(COMPLETED)];
    } else {
      SingleQuietStep(Requested(SitesEndpoint));
      assert SitesPhase(sites) == [Requested(SitesEndpoint)];
    }
  }

  lemma CablesPhaseEventsOf(cabs: Response<UpstreamCable>, sites: Response<UpstreamSite>)
    ensures EventsOf(CablesPhase(cabs, sites)) == CablesPhaseEvents(cabs, sites)
  {
    if cabs.Fetched? {
      PhaseEvents(Requested(CablesEndpoint), CableSteps(ResultsOf(cabs)), SitesPhase(sites));
      CableStepsEvents(ResultsOf(cabs));
      SitesPhaseEventsOf(sites);
    } else {
      SingleQuietStep(Requested(CablesEndpoint));
      assert CablesPhase(cabs, sites) == [Requested(CablesEndpoint)];
    }
  }

  lemma DevicesPhaseEventsOf(devs: Response<UpstreamDevice>, cabs: Response<UpstreamCable>,
                             sites: Response<UpstreamSite>)
    ensures EventsOf(DevicesPhase(devs, cabs, sites)) == DevicesPhaseEvents(devs, cabs, sites)
  {
    if devs.Fetched? {
      PhaseEvents(Requested(DevicesEndpoint), DeviceSteps(ResultsOf(devs)), CablesPhase(cabs, sites));
      DeviceStepsEvents(ResultsOf(devs));
      CablesPhaseEventsOf(cabs, sites);
    } else {
      SingleQuietStep(Requested(DevicesEndpoint));
      assert DevicesPhase(devs, cabs, sites) == [Requested(DevicesEndpoint)];
    }
  }

  /** The opening announces the run and nothing else. */
  lemma OpeningEvents()
    ensures EventsOf(OPENING) == [STARTED]
  {
    var o := OPENING;
    assert o[..4][..3][..2][..1][..0] == [];
    EventsOfSnoc([], Emitted(STARTED));
    assert [] + [Emitted(STARTED)] == o[..1];
    EventsOfSnoc(o[..1], Cleared(DevicesTable));
    assert o[..1] + [Cleared(DevicesTable)] == o[..2];
    EventsOfSnoc(o[..2], Cleared(ConnectionsTable));
    assert o[..2] + [Cleared(ConnectionsTable)] == o[..3];
    EventsOfSnoc(o[..3], Cleared(RegionsTable));
    assert o[..3] + [Cleared(RegionsTable)] == o[..4];
    EventsOfSnoc(o[..4], Committed);
    assert o[..4] + [Committed] == o;
  }

  /**
   * The events `SyncFromNetbox` emits (and dispatches) are exactly the emits of
   * its trace, in trace order.
   */
  lemma SyncTraceEvents(devs: Response<UpstreamDevice>, cabs: Response<UpstreamCable>,
                        sites: Response<UpstreamSite>)
    ensures EventsOf(SyncTrace(devs, cabs, sites)) == SyncEvents(devs, cabs, sites)
  {
    EventsOfAppend(OPENING, DevicesPhase(devs, cabs, sites));
    DevicesPhaseEventsOf(devs, cabs, sites);
    OpeningEvents();
  }

  // ---------------------------------------------------------------------------
  // The order of a run

  /**
   * A step in the body of a run: not the announcement of its start or of its
   * completion, not a clear, nothing done to positions and no websocket frame.
   */
  predicate Quiet(s: Step) {
    s != Emitted(STARTED) && s != Emitted(COMPLETED) && !s.Cleared?
    && s != Wrote(PositionsTable) && !s.Sent?
  }

  predicate AllQuiet(t: seq<Step>) {
    forall k :: 0 <= k < |t| ==> Quiet(t[k])
  }

  lemma AllQuietAppend(a: seq<Step>, b: seq<Step>)
    requires AllQuiet(a) && AllQuiet(b)
    ensures AllQuiet(a + b)
  {
    forall k | 0 <= k < |a + b|
      ensures Quiet((a + b)[k])
    {
      if k >= |a| {
        assert (a + b)[k] == b[k - |a|];
      }
    }
  }

  /** The devices loop only writes devices and announces them. */
  lemma {:induction false} DeviceStepsQuiet(ds: seq<UpstreamDevice>)
    ensures AllQuiet(DeviceSteps(ds))
  {
    if ds != [] {
      var init, d := ds[..|ds| - 1], ds[|ds| - 1];
      DeviceStepsQuiet(init);
      AllQuietAppend(DeviceSteps(init), [Wrote(DevicesTable), Emitted(DeviceAdded(d))]);
    }
  }

  /** The cables loop only writes connections and announces them. */
  lemma {:induction false} CableStepsQuiet(cs: seq<UpstreamCable>)
    ensures AllQuiet(CableSteps(cs))
  {
    if cs != [] {
      var init, c := cs[..|cs| - 1], cs[|cs| - 1];
      CableStepsQuiet(init);
      AllQuietAppend(CableSteps(init), CableStep(c));
    }
  }

  /** The sites loop only writes regions and announces them. */
  lemma {:induction false} SiteStepsQuiet(ss: seq<UpstreamSite>)
    ensures AllQuiet(SiteSteps(ss))
  {
    if ss != [] {
      var init, s := ss[..|ss| - 1], ss[|ss| - 1];
      SiteStepsQuiet(init);
      AllQuietAppend(SiteSteps(init), [Wrote(RegionsTable), Emitted(RegionAdded(s, |ss| - 1))]);
    }
  }

  /**
   * How the rest of a run `p` ends for outcome `o`: a completed run ends with
   * the last commit and then `sync_completed`, with only body steps before; an
   * aborted run is all body steps and ends with the request that failed.
   */
  ghost predicate EndsAs(p: seq<Step>, o: SyncOutcome) {
    && |p| >= 1
    && (o.Completed? ==>
          |p| >= 2 && p[|p| - 1] == Emitted(COMPLETED) && p[|p| - 2] == Committed && AllQuiet(p[..|p| - 1]))
    && (o.Aborted? ==> AllQuiet(p) && p[|p| - 1] == Requested(o.at))
  }

  /** Body steps in front of the rest of a run do not change how it ends. */
  lemma EndsAsAfterQuiet(pre: seq<Step>, p: seq<Step>, o: SyncOutcome)
    requires AllQuiet(pre) && EndsAs(p, o)
    ensures EndsAs(pre + p, o)
  {
    var q := pre + p;
    assert q[|q| - 1] == p[|p| - 1];
    if o.Completed? {
      assert q[|q| - 2] == p[|p| - 2];
      assert q[..|q| - 1] == pre + p[..|p| - 1];
      AllQuietAppend(pre, p[..|p| - 1]);
    } else {
      AllQuietAppend(pre, p);
    }
  }

  lemma SitesPhaseEnds(sites: Response<UpstreamSite>)
    ensures EndsAs(SitesPhase(sites), if sites.FetchFailed? then Aborted(SitesEndpoint) else Completed)
  {
    var p := SitesPhase(sites);
    if sites.Fetched? {
      var body := [Requested(SitesEndpoint)] + SiteSteps(ResultsOf(sites)) + [Committed];
      SiteStepsQuiet(ResultsOf(sites));
      AllQuietAppend([Requested(SitesEndpoint)], SiteSteps(ResultsOf(sites)));
      assert p == body + [Emitted(COMPLETED)];
      assert p[..|p| - 1] == body;
      AllQuietAppend([Requested(SitesEndpoint)] + SiteSteps(ResultsOf(sites)), [Committed]);
    }
  }

  lemma CablesPhaseEnds(cabs: Response<UpstreamCable>, sites: Response<UpstreamSite>)
    ensures EndsAs(CablesPhase(cabs, sites),
                   if cabs.FetchFailed? then Aborted(CablesEndpoint)
                   else if sites.FetchFailed? then Aborted(SitesEndpoint) else Completed)
  {
    if cabs.Fetched? {
      var pre := [Requested(CablesEndpoint)] + CableSteps(ResultsOf(cabs)) + [Committed];
      CableStepsQuiet(ResultsOf(cabs));
      AllQuietAppend([Requested(CablesEndpoint)], CableSteps(ResultsOf(cabs)));
      AllQuietAppend([Requested(CablesEndpoint)] + CableSteps(ResultsOf(cabs)), [Committed]);
      SitesPhaseEnds(sites);
      EndsAsAfterQuiet(pre, SitesPhase(sites), if sites.FetchFailed? then Aborted(SitesEndpoint) else Completed);
      assert CablesPhase(cabs, sites) == pre + SitesPhase(sites);
    }
  }

  lemma DevicesPhaseEnds(devs: Response<UpstreamDevice>, cabs: Response<UpstreamCable>,
                         sites: Response<UpstreamSite>)
    ensures EndsAs(DevicesPhase(devs, cabs, sites), OutcomeOf(devs, cabs, sites))
  {
    if devs.Fetched? {
      var pre := [Requested(DevicesEndpoint)] + DeviceSteps(ResultsOf(devs)) + [Committed];
      DeviceStepsQuiet(ResultsOf(devs));
      AllQuietAppend([Requested(DevicesEndpoint)], DeviceSteps(ResultsOf(devs)));
      AllQuietAppend([Requested(DevicesEndpoint)] + DeviceSteps(ResultsOf(devs)), [Committed]);
      CablesPhaseEnds(cabs, sites);
      EndsAsAfterQuiet(pre, CablesPhase(cabs, sites), OutcomeOf(devs, cabs, sites));
      assert DevicesPhase(devs, cabs, sites) == pre + CablesPhase(cabs, sites);
    }
  }

  /**
   * The shape of a run: the opening, then the devices request, then steps
   * that end as `o` says, all of them body steps except the last one of a
   * completed run.
   */
  ghost predicate RunShaped(t: seq<Step>, o: SyncOutcome) {
    && |t| >= 6
    && t[..5] == OPENING
    && t[5] == Requested(DevicesEndpoint)
    && EndsAs(t[5..], o)
    && (forall k :: 5 <= k < |t| - 1 ==> Quiet(t[k]))
    && (o.Aborted? ==> Quiet(t[|t| - 1]))
  }

  /** The opening followed by a devices phase that ends as `o` says has the shape of a run. */
  lemma OpeningThenPhase(p: seq<Step>, o: SyncOutcome)
    requires EndsAs(p, o) && p[0] == Requested(DevicesEndpoint)
    ensures RunShaped(OPENING + p, o)
  {
    var t := OPENING + p;
    assert t[..5] == OPENING && t[5..] == p;
    forall k | 5 <= k < |t| - 1
      ensures Quiet(t[k])
    {
      assert t[k] == p[k - 5];
      if o.Completed? {
        assert p[..|p| - 1][k - 5] == p[k - 5];
      }
    }
    assert t[|t| - 1] == p[|p| - 1];
  }

  /** Every run has that shape. */
  lemma SyncBody(devs: Response<UpstreamDevice>, cabs: Response<UpstreamCable>, sites: Response<UpstreamSite>)
    ensures RunShaped(SyncTrace(devs, cabs, sites), OutcomeOf(devs, cabs, sites))
  {
    DevicesPhaseEnds(devs, cabs, sites);
    OpeningThenPhase(DevicesPhase(devs, cabs, sites), OutcomeOf(devs, cabs, sites));
  }

  /** The steps of the opening, one by one. */
  lemma OpeningSteps(t: seq<Step>)
    requires |t| >= 5 && t[..5] == OPENING
    ensures t[0] == Emitted(STARTED) && t[4] == Committed
    ensures t[1..4] == [Cleared(DevicesTable), Cleared(ConnectionsTable), Cleared(RegionsTable)]
    ensures forall k :: 0 <= k < 5 ==>
      !t[k].Requested? && t[k] != Wrote(PositionsTable) && t[k] != Cleared(PositionsTable) && t[k] != Emitted(COMPLETED)
    ensures forall k :: 0 < k < 5 ==> t[k] != Emitted(STARTED)
  {
    forall k | 0 <= k < 5
      ensures t[k] == OPENING[k]
    {
      assert t[..5][k] == t[k];
    }
    assert t[1..4] == t[..5][1..4];
  }

  lemma ShapedOpensFirst(t: seq<Step>, o: SyncOutcome)
    requires RunShaped(t, o)
    ensures && |t| >= 6
      && t[0] == Emitted(STARTED)
      && t[1..4] == [Cleared(DevicesTable), Cleared(ConnectionsTable), Cleared(RegionsTable)]
      && t[4] == Committed
      && t[5] == Requested(DevicesEndpoint)
      && (forall k :: 0 <= k < 5 ==> !t[k].Requested?)
      && (forall k :: 0 < k < |t| ==> t[k] != Emitted(STARTED))
      && (forall k :: 5 <= k < |t| ==> !t[k].Cleared?)
  {
    OpeningSteps(t);
    var p := t[5..];
    assert t[|t| - 1] == p[|p| - 1];
  }

  lemma ShapedCompletesLast(t: seq<Step>, o: SyncOutcome)
    requires RunShaped(t, o)
    ensures && (o.Completed? <==> t[|t| - 1] == Emitted(COMPLETED))
      && (o.Completed? ==> t[|t| - 2] == Committed)
      && (o.Aborted? ==> t[|t| - 1] == Requested(o.at))
      && (forall k :: 0 <= k < |t| && t[k] == Emitted(COMPLETED) ==> k == |t| - 1)
  {
    OpeningSteps(t);
    var p := t[5..];
    assert t[|t| - 1] == p[|p| - 1];
    if o.Completed? {
      assert t[|t| - 2] == p[|p| - 2];
    }
  }

  lemma ShapedLeavesPositions(t: seq<Step>, o: SyncOutcome)
    requires RunShaped(t, o)
    ensures forall k :: 0 <= k < |t| ==> t[k] != Cleared(PositionsTable) && t[k] != Wrote(PositionsTable)
  {
    OpeningSteps(t);
    var p := t[5..];
    assert t[|t| - 1] == p[|p| - 1];
  }

  lemma ShapedSendsNothing(t: seq<Step>, o: SyncOutcome)
    requires RunShaped(t, o)
    ensures forall k :: 0 <= k < |t| ==> !t[k].Sent?
  {
    OpeningSteps(t);
    var p := t[5..];
    assert t[|t| - 1] == p[|p| - 1];
  }

  /**
   * A run opens with `sync_started`, then deletes devices, connections and
   * regions and commits, all before its first request (for the devices); it
   * never announces a start again, and never clears anything afterwards.
   */
  lemma SyncOpensFirst(devs: Response<UpstreamDevice>, cabs: Response<UpstreamCable>,
                       sites: Response<UpstreamSite>)
    ensures var t := SyncTrace(devs, cabs, sites);
      && |t| >= 6
      && t[0] == Emitted(STARTED)
      && t[1..4] == [Cleared(DevicesTable), Cleared(ConnectionsTable), Cleared(RegionsTable)]
      && t[4] == Committed
      && t[5] == Requested(DevicesEndpoint)
      && (forall k :: 0 <= k < 5 ==> !t[k].Requested?)
      && (forall k :: 0 < k < |t| ==> t[k] != Emitted(STARTED))
      && (forall k :: 5 <= k < |t| ==> !t[k].Cleared?)
  {
    SyncBody(devs, cabs, sites);
    ShapedOpensFirst(SyncTrace(devs, cabs, sites), OutcomeOf(devs, cabs, sites));
  }

  /**
   * A run ends with `sync_completed`, right after the regions commit, exactly
   * when all three fetches succeed; `sync_completed` occurs nowhere else. A
   * run that stops ends with the request that failed.
   */
  lemma SyncCompletesLast(devs: Response<UpstreamDevice>, cabs: Response<UpstreamCable>,
                          sites: Response<UpstreamSite>)
    ensures var t := SyncTrace(devs, cabs, sites);
      && (OutcomeOf(devs, cabs, sites).Completed? <==> t[|t| - 1] == Emitted(COMPLETED))
      && (OutcomeOf(devs, cabs, sites).Completed? ==> t[|t| - 2] == Committed)
      && (OutcomeOf(devs, cabs, sites).Aborted? ==> t[|t| - 1] == Requested(OutcomeOf(devs, cabs, sites).at))
      && (forall k :: 0 <= k < |t| && t[k] == Emitted(COMPLETED) ==> k == |t| - 1)
  {
    SyncBody(devs, cabs, sites);
    ShapedCompletesLast(SyncTrace(devs, cabs, sites), OutcomeOf(devs, cabs, sites));
  }

  /** A run never deletes, writes or otherwise touches the positions table. */
  lemma SyncLeavesPositions(devs: Response<UpstreamDevice>, cabs: Response<UpstreamCable>,
                            sites: Response<UpstreamSite>)
    ensures var t := SyncTrace(devs, cabs, sites);
      forall k :: 0 <= k < |t| ==> t[k] != Cleared(PositionsTable) && t[k] != Wrote(PositionsTable)
  {
    SyncBody(devs, cabs, sites);
    ShapedLeavesPositions(SyncTrace(devs, cabs, sites), OutcomeOf(devs, cabs, sites));
  }

  /** A run sends nothing to the websocket clients: every frame is sent by its caller. */
  lemma SyncSendsNothing(devs: Response<UpstreamDevice>, cabs: Response<UpstreamCable>,
                         sites: Response<UpstreamSite>)
    ensures var t := SyncTrace(devs, cabs, sites);
      forall k :: 0 <= k < |t| ==> !t[k].Sent?
  {
    SyncBody(devs, cabs, sites);
    ShapedSendsNothing(SyncTrace(devs, cabs, sites), OutcomeOf(devs, cabs, sites));
  }
}
