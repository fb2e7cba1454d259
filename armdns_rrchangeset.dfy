/**
 * The changeset engine of the Azure DNS provider (rrchangeset.go). `Add`,
 * `Remove` and `Upsert` append to three lists; `Apply` sends one delete per
 * removal, then one create-or-update per addition, then one per upsert, to
 * the service the zone type routes to, and stops at the first error. The
 * lists are never cleared.
 */
module AzureDnsChangeset {
  import opened Wrappers
  import opened AzureDns
  import opened AzureDnsZone
  import opened AzureDnsRrset
  import opened CloudBackend

  /** The record set a create-or-update sends; the public and private SDK shapes carry the same fields. */
  datatype RecordSetPayload = RecordSetPayload(name: string, recordType: string, fqdn: string, ttl: Int64, aRecords: seq<ARecord>)

  /** One call to a DNS record-set service, with the client that carried it. */
  datatype DnsCall =
    | Delete(client: RecordSetsClient, resourceGroup: string, zoneName: string, relativeName: string, recordType: string)
    | CreateOrUpdate(client: RecordSetsClient, resourceGroup: string, zoneName: string, relativeName: string, recordType: string, payload: RecordSetPayload)

  /** The client a changeset's calls go to: the public one iff its zone is public. */
  function ChangesetClient(zone: Zone, rrsets: ResourceRecordSets): Option<RecordSetsClient>
  {
    if zone.IsPublic() then rrsets.publicClient else rrsets.privateClient
  }

  /** What the calls dereference: the zone's name (and a pattern built from it), and the routed client. */
  predicate Routable(zone: Zone, rrsets: ResourceRecordSets)
  {
    zone.HasName() && IsDnsName(zone.Name()) && ChangesetClient(zone, rrsets).Some?
  }

  /** A delete reads only the record set's name. */
  predicate AllNamed(s: seq<ResourceRecordSet>)
  {
    forall i :: 0 <= i < |s| ==> s[i].Active().name.Some?
  }

  /** A create-or-update reads the record set's name and TTL. */
  predicate AllWellFormed(s: seq<ResourceRecordSet>)
  {
    forall i :: 0 <= i < |s| ==> s[i].WellFormed()
  }

  /** Name and FQDN are the record set's full name; TTL and addresses are its own. */
  function PayloadOf(r: ResourceRecordSet): RecordSetPayload
    requires r.WellFormed()
  {
    RecordSetPayload(r.Name(), r.Type(), r.Name(), r.Ttl(), ARecordsOf(r.RrdataValues()))
  }

  /** The payload when the A-record loop's `rrdata` variable is shared by all iterations (Go before 1.22). */
  function SharedVariablePayloadOf(r: ResourceRecordSet): RecordSetPayload
    requires r.WellFormed()
  {
    RecordSetPayload(r.Name(), r.Type(), r.Name(), r.Ttl(), SharedVariableARecords(r.RrdataValues()))
  }

  /** The delete issued for a removal. */
  function DeleteCall(zone: Zone, client: RecordSetsClient, r: ResourceRecordSet): DnsCall
    requires zone.HasName() && IsDnsName(zone.Name()) && r.Active().name.Some?
  {
    Delete(client, zone.zones.config.resourceGroup, zone.Name(), AzureRelativeRecordSetName(r.Name(), zone.Name()), r.Type())
  }

  /** The create-or-update issued for an addition or an upsert. */
  function PutCall(zone: Zone, client: RecordSetsClient, r: ResourceRecordSet): DnsCall
    requires zone.HasName() && IsDnsName(zone.Name()) && r.WellFormed()
  {
    CreateOrUpdate(client, zone.zones.config.resourceGroup, zone.Name(), AzureRelativeRecordSetName(r.Name(), zone.Name()), r.Type(), PayloadOf(r))
  }

  /** Every call an `Apply` plans, in the order it issues them; only a non-empty plan reads the zone's name. */
  function Plan(zone: Zone, client: RecordSetsClient, removals: seq<ResourceRecordSet>, additions: seq<ResourceRecordSet>, upserts: seq<ResourceRecordSet>): seq<DnsCall>
    requires 0 < |removals| + |additions| + |upserts| ==> zone.HasName() && IsDnsName(zone.Name())
    requires AllNamed(removals) && AllWellFormed(additions) && AllWellFormed(upserts)
  {
    seq(|removals|, i requires 0 <= i < |removals| => DeleteCall(zone, client, removals[i])) +
    seq(|additions|, i requires 0 <= i < |additions| => PutCall(zone, client, additions[i])) +
    seq(|upserts|, i requires 0 <= i < |upserts| => PutCall(zone, client, upserts[i]))
  }

  /** Where each queued entry's call sits in the plan. */
  lemma PlanLayout(zone: Zone, client: RecordSetsClient, removals: seq<ResourceRecordSet>, additions: seq<ResourceRecordSet>, upserts: seq<ResourceRecordSet>)
    requires zone.HasName() && IsDnsName(zone.Name())
    requires AllNamed(removals) && AllWellFormed(additions) && AllWellFormed(upserts)
    ensures var plan := Plan(zone, client, removals, additions, upserts);
      && |plan| == |removals| + |additions| + |upserts|
      && (forall i :: 0 <= i < |removals| ==> plan[i] == DeleteCall(zone, client, removals[i]))
      && (forall i :: 0 <= i < |additions| ==> plan[|removals| + i] == PutCall(zone, client, additions[i]))
      && (forall i :: 0 <= i < |upserts| ==> plan[|removals| + |additions| + i] == PutCall(zone, client, upserts[i]))
  {
  }

  class ResourceRecordChangeset {
    const zone: Zone
    const rrsets: ResourceRecordSets
    var additions: seq<ResourceRecordSet>
    var removals: seq<ResourceRecordSet>
    var upserts: seq<ResourceRecordSet>

    /** A changeset starts with three empty lists. */
    constructor (zone: Zone, rrsets: ResourceRecordSets)
      ensures this.zone == zone && this.rrsets == rrsets
      ensures additions == [] && removals == [] && upserts == []
    {
      this.zone := zone;
      this.rrsets := rrsets;
      additions, removals, upserts := [], [], [];
    }

    /** Queues a creation; returns the same changeset. */
    method Add(rrset: ResourceRecordSet) returns (c: ResourceRecordChangeset)
      modifies this
      ensures additions == old(additions) + [rrset]
      ensures removals == old(removals) && upserts == old(upserts)
      ensures c == this
    {
      additions := additions + [rrset];
      c := this;
    }

    /** Queues a deletion; returns the same changeset. */
    method Remove(rrset: ResourceRecordSet) returns (c: ResourceRecordChangeset)
      modifies this
      ensures removals == old(removals) + [rrset]
      ensures additions == old(additions) && upserts == old(upserts)
      ensures c == this
    {
      removals := removals + [rrset];
      c := this;
    }

    /** Queues a create-or-replace; returns the same changeset. */
    method Upsert(rrset: ResourceRecordSet) returns (c: ResourceRecordChangeset)
      modifies this
      ensures upserts == old(upserts) + [rrset]
      ensures additions == old(additions) && removals == old(removals)
      ensures c == this
    {
      upserts := upserts + [rrset];
      c := this;
    }

    /** Whether nothing is queued. */
    function IsEmpty(): (b: bool)
      reads this
      ensures b <==> removals == [] && additions == [] && upserts == []
    {
      |removals| == 0 && |additions| == 0 && |upserts| == 0
    }

    /** The parent record-set collection. */
    function RecordSets(): (r: ResourceRecordSets)
      reads this
      ensures r == rrsets
    {
      rrsets
    }

    /** What `Apply` dereferences on its way. */
    predicate Ready()
      reads this
    {
      Routable(zone, rrsets) && AllNamed(removals) && AllWellFormed(additions) && AllWellFormed(upserts)
    }

    /** The calls `Apply` would issue if none failed. */
    function PlannedCalls(): seq<DnsCall>
      reads this
      requires Ready()
    {
      Plan(zone, ChangesetClient(zone, rrsets).value, removals, additions, upserts)
    }

    /** Builds the record set for one entry and sends it as a create-or-update. */
    method CreateOrUpdateAzureRecordSet(backend: Backend<DnsCall>, input: ResourceRecordSet) returns (err: Option<CloudError>)
      requires Routable(zone, rrsets) && input.WellFormed()
      modifies backend
      ensures backend.trace == old(backend.trace) + [PutCall(zone, ChangesetClient(zone, rrsets).value, input)]
      ensures err == Outcome(|old(backend.trace)|, backend.failing)
    {
      var relativeName := AzureRelativeRecordSetName(input.Name(), zone.Name());
      var rrdatas := input.Rrdatas();
      var arecords := RangeARecords(rrdatas, true);
      var payload := RecordSetPayload(input.Name(), input.Type(), input.Name(), input.Ttl(), arecords);
      var client := ChangesetClient(zone, rrsets).value;
      err := backend.Call(CreateOrUpdate(client, zone.zones.config.resourceGroup, zone.Name(), relativeName, input.Type(), payload));
    }

    /**
     * Sends the deletes for `entries`, the first calls of the plan `calls`,
     * from a trace that stood at `before`.
     */
    method SendDeletes(backend: Backend<DnsCall>, entries: seq<ResourceRecordSet>, ghost calls: seq<DnsCall>) returns (err: Option<CloudError>)
      requires Routable(zone, rrsets) && AllNamed(entries) && |entries| <= |calls|
      requires forall i :: 0 <= i < |entries| ==> calls[i] == DeleteCall(zone, ChangesetClient(zone, rrsets).value, entries[i])
      modifies backend
      ensures err.None? ==> backend.trace == old(backend.trace) + calls[..|entries|]
      ensures err.None? ==> |entries| <= Succeeding(|old(backend.trace)|, |calls|, backend.failing)
      ensures err.Some? ==> backend.trace == old(backend.trace) + Issued(calls, |old(backend.trace)|, backend.failing)
      ensures err.Some? ==> err == RunError(|calls|, |old(backend.trace)|, backend.failing)
    {
      var client := ChangesetClient(zone, rrsets).value;
      ghost var t0 := |backend.trace|;
      err := None;
      var i := 0;
      while i < |entries|
        invariant 0 <= i <= |entries| && i <= Succeeding(t0, |calls|, backend.failing)
        invariant backend.trace == old(backend.trace) + calls[..i]
        invariant err.None?
      {
        var removal := entries[i];
        var relativeName := AzureRelativeRecordSetName(removal.Name(), zone.Name());
        err := backend.Call(Delete(client, zone.zones.config.resourceGroup, zone.Name(), relativeName, removal.Type()));
        assert calls[..i + 1] == calls[..i] + [calls[i]];
        if err.Some? {
          StepFails(calls, t0, backend.failing, i);
          return;
        }
        StepSucceeds(calls, t0, backend.failing, i);
        i := i + 1;
      }
    }

    /**
     * Sends create-or-updates for `entries`, which sit in the plan `calls`
     * from position `offset` on, after a run from trace `before` issued
     * `calls[..offset]` without error.
     */
    method SendPuts(backend: Backend<DnsCall>, entries: seq<ResourceRecordSet>, ghost calls: seq<DnsCall>, ghost before: seq<DnsCall>, ghost offset: nat) returns (err: Option<CloudError>)
      requires Routable(zone, rrsets) && AllWellFormed(entries) && offset + |entries| <= |calls|
      requires forall i :: 0 <= i < |entries| ==> calls[offset + i] == PutCall(zone, ChangesetClient(zone, rrsets).value, entries[i])
      requires backend.trace == before + calls[..offset]
      requires offset <= Succeeding(|before|, |calls|, backend.failing)
      modifies backend
      ensures err.None? ==> backend.trace == before + calls[..offset + |entries|]
      ensures err.None? ==> offset + |entries| <= Succeeding(|before|, |calls|, backend.failing)
      ensures err.Some? ==> backend.trace == before + Issued(calls, |before|, backend.failing)
      ensures err.Some? ==> err == RunError(|calls|, |before|, backend.failing)
    {
      err := None;
      var i := 0;
      while i < |entries|
        invariant 0 <= i <= |entries| && offset + i <= Succeeding(|before|, |calls|, backend.failing)
        invariant backend.trace == before + calls[..offset + i]
        invariant err.None?
      {
        err := CreateOrUpdateAzureRecordSet(backend, entries[i]);
        assert calls[..offset + i + 1] == calls[..offset + i] + [calls[offset + i]];
        if err.Some? {
          StepFails(calls, |before|, backend.failing, offset + i);
          return;
        }
        StepSucceeds(calls, |before|, backend.failing, offset + i);
        i := i + 1;
      }
    }

    /** Sends the additions, then the upserts, which follow them in the plan `calls` from position `offset` on. */
    method SendWrites(backend: Backend<DnsCall>, adds: seq<ResourceRecordSet>, ups: seq<ResourceRecordSet>, ghost calls: seq<DnsCall>, ghost before: seq<DnsCall>, ghost offset: nat) returns (err: Option<CloudError>)
      requires Routable(zone, rrsets) && AllWellFormed(adds) && AllWellFormed(ups) && offset + |adds| + |ups| <= |calls|
      requires forall i :: 0 <= i < |adds| ==> calls[offset + i] == PutCall(zone, ChangesetClient(zone, rrsets).value, adds[i])
      requires forall i :: 0 <= i < |ups| ==> calls[offset + |adds| + i] == PutCall(zone, ChangesetClient(zone, rrsets).value, ups[i])
      requires backend.trace == before + calls[..offset]
      requires offset <= Succeeding(|before|, |calls|, backend.failing)
      modifies backend
      ensures err.None? ==> backend.trace == before + calls[..offset + |adds| + |ups|]
      ensures err.None? ==> offset + |adds| + |ups| <= Succeeding(|before|, |calls|, backend.failing)
      ensures err.Some? ==> backend.trace == before + Issued(calls, |before|, backend.failing)
      ensures err.Some? ==> err == RunError(|calls|, |before|, backend.failing)
    {
      err := SendPuts(backend, adds, calls, before, offset);
      if err.Some? {
        return;
      }
      err := SendPuts(backend, ups, calls, before, offset + |adds|);
    }

    /**
     * Sends every delete, then every addition, then every upsert, stopping at
     * the first error. The trace grows by exactly the planned calls up to and
     * including the first one that fails; the queued lists stay as they were.
     */
    method Apply(backend: Backend<DnsCall>) returns (err: Option<CloudError>)
      requires IsEmpty() || Ready()
      modifies backend
      ensures IsEmpty() ==> err.None? && backend.trace == old(backend.trace)
      ensures Ready() ==> backend.trace == old(backend.trace) + Issued(PlannedCalls(), |old(backend.trace)|, backend.failing)
      ensures Ready() ==> err == RunError(|PlannedCalls()|, |old(backend.trace)|, backend.failing)
      ensures removals == old(removals) && additions == old(additions) && upserts == old(upserts)
    {
      ghost var before := backend.trace;
      if IsEmpty() {
        if Ready() {
          EmptyPlan(zone, ChangesetClient(zone, rrsets).value);
          RunCompletes(PlannedCalls(), |before|, backend.failing);
        }
        return None;
      }
      ghost var calls := PlannedCalls();
      var deletes, adds, ups := removals, additions, upserts;
      ghost var client := ChangesetClient(zone, rrsets).value;
      PlanLayout(zone, client, deletes, adds, ups);
      err := SendDeletes(backend, deletes, calls);
      if err.Some? {
        return;
      }
      err := SendWrites(backend, adds, ups, calls, before, |deletes|);
      if err.Some? {
        return;
      }
      assert calls[..|calls|] == calls;
      RunCompletes(calls, |before|, backend.failing);
    }
  }

  /** A changeset bound to the collection its zone builds always finds its client, of the zone's kind. */
  lemma BuiltCollectionServesChangeset(zone: Zone)
    ensures ChangesetClient(zone, zone.ResourceRecordSets().0) == Some(RecordSetsClient(ClientKindFor(zone.zoneType), zone.zones.config.subscriptionId))
  {
  }

  /** Nothing queued, nothing planned, whatever the zone. */
  lemma EmptyPlan(zone: Zone, client: RecordSetsClient)
    ensures Plan(zone, client, [], [], []) == []
  {
  }

  /** Every delete comes before every create-or-update, and each queued entry yields exactly one call. */
  lemma DeletesPrecedeWrites(zone: Zone, client: RecordSetsClient, removals: seq<ResourceRecordSet>, additions: seq<ResourceRecordSet>, upserts: seq<ResourceRecordSet>)
    requires zone.HasName() && IsDnsName(zone.Name())
    requires AllNamed(removals) && AllWellFormed(additions) && AllWellFormed(upserts)
    ensures var plan := Plan(zone, client, removals, additions, upserts);
      && |plan| == |removals| + |additions| + |upserts|
      && (forall i :: 0 <= i < |plan| ==> (plan[i].Delete? <==> i < |removals|))
      && (forall i, j :: 0 <= i < j < |plan| && plan[j].Delete? ==> plan[i].Delete?)
  {
    var plan := Plan(zone, client, removals, additions, upserts);
    PlanLayout(zone, client, removals, additions, upserts);
    forall i | 0 <= i < |plan| ensures plan[i].Delete? <==> i < |removals| {
      if i < |removals| {
      } else if i < |removals| + |additions| {
        assert plan[|removals| + (i - |removals|)] == plan[i];
      } else {
        assert plan[|removals| + |additions| + (i - |removals| - |additions|)] == plan[i];
      }
    }
  }

  /**
   * A call keyed for entry `r`: through `client`, to the configured resource
   * group and the zone's name, for type `"A"`, under `r`'s name relative to
   * the zone; a create-or-update also carries `r`'s payload.
   */
  predicate KeyedBy(c: DnsCall, zone: Zone, client: RecordSetsClient, r: ResourceRecordSet)
  {
    && zone.HasName() && IsDnsName(zone.Name()) && r.Active().name.Some?
    && c.client == client
    && c.resourceGroup == zone.zones.config.resourceGroup
    && c.zoneName == zone.Name()
    && c.relativeName == AzureRelativeRecordSetName(r.Name(), zone.Name())
    && c.recordType == "A"
    && (c.CreateOrUpdate? ==> r.WellFormed() && c.payload == PayloadOf(r))
  }

  /** The plan's `i`-th call is keyed by the `i`-th queued entry, removals first, then additions, then upserts. */
  lemma PlanKeysEveryCall(zone: Zone, client: RecordSetsClient, removals: seq<ResourceRecordSet>, additions: seq<ResourceRecordSet>, upserts: seq<ResourceRecordSet>)
    requires zone.HasName() && IsDnsName(zone.Name())
    requires AllNamed(removals) && AllWellFormed(additions) && AllWellFormed(upserts)
    ensures var plan := Plan(zone, client, removals, additions, upserts);
      var queued := removals + additions + upserts;
      |plan| == |queued| && forall i :: 0 <= i < |plan| ==> KeyedBy(plan[i], zone, client, queued[i])
  {
    var plan := Plan(zone, client, removals, additions, upserts);
    var queued := removals + additions + upserts;
    PlanLayout(zone, client, removals, additions, upserts);
    forall i | 0 <= i < |plan| ensures KeyedBy(plan[i], zone, client, queued[i]) {
      if i < |removals| {
        assert queued[i] == removals[i];
      } else if i < |removals| + |additions| {
        var j := i - |removals|;
        assert plan[|removals| + j] == plan[i];
        assert queued[i] == additions[j];
      } else {
        var j := i - |removals| - |additions|;
        assert plan[|removals| + |additions| + j] == plan[i];
        assert queued[i] == upserts[j];
      }
    }
  }

  /** A create-or-update sends the entry's full name, its TTL and one A record per stored address, in order. */
  lemma PayloadCarriesRecordSet(r: ResourceRecordSet)
    requires r.WellFormed()
    ensures PayloadOf(r).name == r.Name() && PayloadOf(r).fqdn == r.Name()
    ensures PayloadOf(r).ttl == r.Ttl()
    ensures PayloadOf(r).aRecords == r.Active().aRecords.value
  {
  }

  /** With a shared `rrdata` variable the payload is still right exactly when every address equals the last one. */
  lemma SharedVariablePayloadRightIff(r: ResourceRecordSet)
    requires r.WellFormed()
    ensures var rrdatas := r.RrdataValues();
      SharedVariablePayloadOf(r) == PayloadOf(r) <==> forall i :: 0 <= i < |rrdatas| ==> rrdatas[i] == rrdatas[|rrdatas| - 1]
  {
    SharedVariableRightIff(r.RrdataValues());
  }

  /** A record set with two addresses: the shared variable sends the second address twice. */
  lemma SharedVariablePayloadLosesAddress(rrsets: ResourceRecordSets)
    ensures var r := ResourceRecordSet(RecordSetImpl(Some("www.example.com"), None, Some(300), Some([ARecord(Some("198.51.100.7")), ARecord(Some("198.51.100.8"))])), EmptyRecordSetImpl, PublicZoneType, rrsets);
      && r.WellFormed()
      && PayloadOf(r).aRecords == [ARecord(Some("198.51.100.7")), ARecord(Some("198.51.100.8"))]
      && SharedVariablePayloadOf(r).aRecords == [ARecord(Some("198.51.100.8")), ARecord(Some("198.51.100.8"))]
  {
    var r := ResourceRecordSet(RecordSetImpl(Some("www.example.com"), None, Some(300), Some([ARecord(Some("198.51.100.7")), ARecord(Some("198.51.100.8"))])), EmptyRecordSetImpl, PublicZoneType, rrsets);
    assert r.RrdataValues() == ["198.51.100.7", "198.51.100.8"];
  }

  /**
   * Applying the same changeset twice against a backend where nothing fails
   * issues the planned calls twice over: the lists are not cleared.
   */
  method ApplyTwice(cs: ResourceRecordChangeset, backend: Backend<DnsCall>) returns (first: Option<CloudError>, second: Option<CloudError>)
    requires cs.Ready()
    requires backend.failing == {}
    modifies backend
    ensures first.None? && second.None?
    ensures backend.trace == old(backend.trace) + cs.PlannedCalls() + cs.PlannedCalls()
  {
    first := cs.Apply(backend);
    RunCompletes(cs.PlannedCalls(), |old(backend.trace)|, backend.failing);
    second := cs.Apply(backend);
    RunCompletes(cs.PlannedCalls(), |old(backend.trace)| + |cs.PlannedCalls()|, backend.failing);
  }

  /** The public zone `example.com` of the example. */
  function ExampleZone(config: Config): Zone
  {
    Zone(ZoneImpl(Some("example.com"), None), EmptyZoneImpl, PublicZoneType, Zones(config))
  }

  /** The record set `www.example.com`, TTL 300, one address, of the example. */
  function ExampleRecord(rrsets: ResourceRecordSets): ResourceRecordSet
  {
    ResourceRecordSet(RecordSetImpl(Some("www.example.com"), None, Some(300), Some([ARecord(Some("198.51.100.7"))])), EmptyRecordSetImpl, PublicZoneType, rrsets)
  }

  /** The example's create-or-update, keyed `"www"`, carrying the record's one address. */
  lemma ExamplePutWww(config: Config, client: RecordSetsClient, rrsets: ResourceRecordSets)
    ensures var zone, r := ExampleZone(config), ExampleRecord(rrsets);
      && zone.HasName() && IsDnsName(zone.Name()) && r.WellFormed()
      && PutCall(zone, client, r) ==
         CreateOrUpdate(client, config.resourceGroup, "example.com", "www", "A",
           RecordSetPayload("www.example.com", "A", "www.example.com", 300, [ARecord(Some("198.51.100.7"))]))
  {
    var zone, r := ExampleZone(config), ExampleRecord(rrsets);
    assert IsDnsName(zone.Name()) by {
      assert forall i :: 0 <= i < |"example.com"| ==> IsDnsNameChar("example.com"[i]);
    }
    ExampleWww();
    assert r.RrdataValues() == ["198.51.100.7"];
    assert ARecordsOf(r.RrdataValues()) == [ARecord(Some("198.51.100.7"))];
  }

  /** Upserting `www.example.com` (TTL 300, one address) into public `example.com` plans one call keyed `"www"`. */
  lemma ExampleUpsertWww(config: Config, client: RecordSetsClient, rrsets: ResourceRecordSets)
    ensures var zone, r := ExampleZone(config), ExampleRecord(rrsets);
      && zone.HasName() && IsDnsName(zone.Name()) && r.WellFormed()
      && Plan(zone, client, [], [], [r]) ==
         [CreateOrUpdate(client, config.resourceGroup, "example.com", "www", "A",
            RecordSetPayload("www.example.com", "A", "www.example.com", 300, [ARecord(Some("198.51.100.7"))]))]
  {
    var zone, r := ExampleZone(config), ExampleRecord(rrsets);
    ExamplePutWww(config, client, rrsets);
    PlanLayout(zone, client, [], [], [r]);
    var plan := Plan(zone, client, [], [], [r]);
    assert |plan| == 1 && plan[0] == PutCall(zone, client, r);
    assert plan == [PutCall(zone, client, r)];
  }
}
