/**
 * The zone of the Azure DNS provider (zone.go): one value holding both a
 * public and a private SDK zone, served by whichever the `zoneType` tag
 * selects. Also the shapes of the `Zones` collection (zones.go) and of a
 * zone's `ResourceRecordSets` collection (rrsets.go), which a zone refers to
 * and builds.
 */
module AzureDnsZone {
  import opened Wrappers
  import opened AzureDns

  /**
   * The configuration the source reads from the environment at each call:
   * AZURE_RESOURCEGROUP_NAME and AZURE_SUBSCRIPTION_ID.
   */
  datatype Config = Config(resourceGroup: string, subscriptionId: string)

  /** The provider's zone collection; its SDK clients are abstract. */
  datatype Zones = Zones(config: Config)

  /** The fields of an SDK zone that the facade reads; each is a pointer that may be nil. */
  datatype ZoneImpl = ZoneImpl(name: Option<string>, id: Option<string>)

  /** An SDK zone left at its zero value. */
  const EmptyZoneImpl := ZoneImpl(None, None)

  /** Which of the two DNS services a record-set client talks to. */
  datatype ClientKind = PublicClient | PrivateClient

  /** A record-set client, bound to a subscription when it is created. */
  datatype RecordSetsClient = RecordSetsClient(kind: ClientKind, subscriptionId: string)

  /** The DNS service that serves a zone type: the public one only for `"public"`. */
  function ClientKindFor(zoneType: string): (k: ClientKind)
    ensures k == PublicClient <==> zoneType == PublicZoneType
  {
    if zoneType == PublicZoneType then PublicClient else PrivateClient
  }

  datatype Zone = Zone(publicImpl: ZoneImpl, privateImpl: ZoneImpl, zoneType: string, zones: Zones)
  {
    predicate IsPublic()
    {
      zoneType == PublicZoneType
    }

    /** The SDK zone the tag selects; every zone type but `"public"` selects the private one. */
    function Active(): ZoneImpl
    {
      if IsPublic() then publicImpl else privateImpl
    }

    /** `Name` dereferences the selected zone's name pointer. */
    predicate HasName()
    {
      Active().name.Some?
    }

    /** The zone's name, read from the public SDK zone iff the zone is public. */
    function Name(): (n: string)
      requires HasName()
      ensures IsPublic() ==> publicImpl.name == Some(n)
      ensures !IsPublic() ==> privateImpl.name == Some(n)
    {
      Active().name.value
    }

    /** The zone's provider ID, with the same dispatch as `Name`. */
    function ID(): (id: string)
      requires Active().id.Some?
      ensures IsPublic() ==> publicImpl.id == Some(id)
      ensures !IsPublic() ==> privateImpl.id == Some(id)
    {
      Active().id.value
    }

    /**
     * The zone's record-set collection; always supported. A public zone's
     * collection holds only a public client, any other zone's only a private
     * one, both bound to the configured subscription.
     */
    function ResourceRecordSets(): (r: (ResourceRecordSets, bool))
      ensures r.1
      ensures r.0.zone == this
      ensures IsPublic() ==> r.0.publicClient == Some(RecordSetsClient(PublicClient, zones.config.subscriptionId)) && r.0.privateClient == None
      ensures !IsPublic() ==> r.0.privateClient == Some(RecordSetsClient(PrivateClient, zones.config.subscriptionId)) && r.0.publicClient == None
    {
      var sub := zones.config.subscriptionId;
      if IsPublic() then
        (RecordSetsOf(this, Some(RecordSetsClient(PublicClient, sub)), None), true)
      else
        (RecordSetsOf(this, None, Some(RecordSetsClient(PrivateClient, sub))), true)
    }
  }

  /** A zone's record-set collection, with the client for each service it may talk to. */
  datatype ResourceRecordSets = RecordSetsOf(zone: Zone, publicClient: Option<RecordSetsClient>, privateClient: Option<RecordSetsClient>)
  {
    /** The parent zone. */
    function Zone(): (z: Zone)
      ensures z == zone
    {
      zone
    }

    /** The client the zone type routes every call to, if this collection holds it. */
    function RoutedClient(): Option<RecordSetsClient>
    {
      if zone.IsPublic() then publicClient else privateClient
    }
  }

  /** The collection a zone builds always holds the client its zone type routes to. */
  lemma {:induction false} BuiltCollectionRoutes(z: Zone)
    ensures z.ResourceRecordSets().0.RoutedClient() == Some(RecordSetsClient(ClientKindFor(z.zoneType), z.zones.config.subscriptionId))
  {
  }

  /** Only the selected SDK zone matters: replacing the other one changes neither name nor ID. */
  lemma InactiveVariantIgnored(z: Zone, other: ZoneImpl)
    ensures var z' := if z.IsPublic() then z.(privateImpl := other) else z.(publicImpl := other);
      z'.Active() == z.Active() &&
      (z.HasName() ==> z'.HasName() && z'.Name() == z.Name())
  {
  }
}
