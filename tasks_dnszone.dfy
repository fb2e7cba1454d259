/**
 * The DNS-zone task (dnszone.go): find the zone by name in a listing, check
 * that it is not renamed, and render it as one create-or-update whose
 * properties say whether the zone is public or private and, for a private
 * zone, which virtual network registers in it.
 */
module AzureTasksDnsZone {
  import opened Wrappers
  import opened AzureTaskCommon
  import opened CloudBackend
  import Strings

  datatype DnsZone = DnsZone(
    name: Option<string>,
    lifecycle: Lifecycle,
    resourceGroup: Option<ResourceGroup>,
    virtualNetworkName: string,
    dnsName: Option<string>,
    zoneId: Option<string>,
    shared: Option<bool>,
    tags: Tags,
    private: Option<bool>)

  /** The path of a virtual network, the registration network of a private zone. */
  datatype VirtualNetworkId = VirtualNetworkId(subscriptionId: string, resourceGroupName: string, virtualNetworkName: string)
  {
    function String(): string
    {
      NetworkResourceId(subscriptionId, resourceGroupName, "virtualNetworks", virtualNetworkName)
    }
  }

  datatype ZoneType = ZoneTypePublic | ZoneTypePrivate

  /** A reference to another resource by its ID. */
  datatype SubResource = SubResource(id: Option<string>)

  /** The SDK zone properties; `zoneType` is a pointer, nil in a `ZoneProperties{}` literal. */
  datatype ZoneProperties = ZoneProperties(zoneType: Option<ZoneType>, registrationVirtualNetworks: Option<seq<SubResource>>)

  /** The SDK zone a create-or-update sends. */
  datatype ZonePayload = ZonePayload(name: Option<string>, location: string, tags: Tags, properties: ZoneProperties)

  /** A call to the DNS-zone service. */
  datatype ZoneCall = CreateOrUpdateZone(resourceGroup: string, name: string, payload: ZonePayload)

  /** Two virtual-network IDs built from one-segment parts are equal only when the parts are. */
  lemma VirtualNetworkIdInjective(v1: VirtualNetworkId, v2: VirtualNetworkId)
    requires IsSegment(v1.subscriptionId) && IsSegment(v1.resourceGroupName) && IsSegment(v1.virtualNetworkName)
    requires IsSegment(v2.subscriptionId) && IsSegment(v2.resourceGroupName) && IsSegment(v2.virtualNetworkName)
    requires v1.String() == v2.String()
    ensures v1 == v2
  {
    assert IsSegment("virtualNetworks");
    NetworkResourceIdInjective(v1.subscriptionId, v1.resourceGroupName, "virtualNetworks", v1.virtualNetworkName,
                               v2.subscriptionId, v2.resourceGroupName, "virtualNetworks", v2.virtualNetworkName);
  }

  /**
   * The task `Find` reports for a listed match: the desired name, lifecycle
   * and resource-group name, and the listed tags; every other field is zero.
   */
  function Discovered(dz: DnsZone, entry: CloudResource): (r: DnsZone)
    requires dz.resourceGroup.Some?
    ensures r.name == dz.name && r.lifecycle == dz.lifecycle
    ensures r.resourceGroup == Some(ResourceGroup(dz.resourceGroup.value.name))
    ensures r.tags == entry.tags
    ensures r.virtualNetworkName == "" && r.dnsName.None? && r.zoneId.None? && r.shared.None? && r.private.None?
  {
    DnsZone(dz.name, dz.lifecycle, Some(ResourceGroup(dz.resourceGroup.value.name)), "", None, None, None, entry.tags, None)
  }

  /**
   * Lists the zones of the resource group and reports the first one with
   * the desired name; no match is absence, not an error.
   */
  method Find(dz: DnsZone, listing: Result<seq<CloudResource>, CloudError>)
    returns (r: Result<Option<DnsZone>, CloudError>)
    requires HasGroupName(dz.resourceGroup)
    requires listing.Success? ==> Scannable(listing.value, dz.name)
    ensures listing.Failure? ==> r == Failure(listing.error)
    ensures listing.Success? ==> r.Success? && (r.value.None? <==> FoundAt(listing.value, dz.name).None?)
    ensures listing.Success? && r.value.Some? ==> r.value == Some(Discovered(dz, listing.value[FoundAt(listing.value, dz.name).value]))
  {
    match listing
    case Failure(e) =>
      return Failure(e);
    case Success(entries) =>
      var found := FindFirst(entries, dz.name);
      if found.None? {
        return Success(None);
      }
      return Success(Some(Discovered(dz, entries[found.value])));
  }

  /** A new zone needs a name; an existing one may not be renamed. */
  function CheckChanges(a: Option<DnsZone>, e: DnsZone, changes: DnsZone): (r: Option<FieldError>)
    ensures a.None? ==> (r == Some(RequiredField("Name")) <==> e.name.None?) && (r.None? <==> e.name.Some?)
    ensures a.Some? ==> (r == Some(CannotChangeField("Name")) <==> changes.name.Some?) && (r.None? <==> changes.name.None?)
  {
    CheckNameChanges(a.Some?, e.name, changes.name)
  }

  /**
   * `*p = v`: a store through the pointer `zoneType`, which panics (`None`)
   * when the pointer is nil.
   */
  function StoreZoneType(props: ZoneProperties, t: ZoneType): (r: Option<ZoneProperties>)
    ensures r.None? <==> props.zoneType.None?
    ensures r.Some? ==> r.value == props.(zoneType := Some(t))
  {
    if props.zoneType.None? then None else Some(props.(zoneType := Some(t)))
  }

  /**
   * The render's property code run on the properties value `start`: it
   * stores the zone type through `start`'s zone-type pointer and, for a
   * private zone, sets the registration networks. It panics (`None`) iff that
   * pointer is nil; with the pointer allocated it yields the intended
   * properties.
   */
  function FillProperties(start: ZoneProperties, subscriptionId: string, e: DnsZone): (r: Option<ZoneProperties>)
    requires e.private.Some? && HasGroupName(e.resourceGroup)
    ensures r.None? <==> start.zoneType.None?
    ensures start.zoneType.Some? && start.registrationVirtualNetworks.None? ==> r == Some(Properties(subscriptionId, e))
  {
    if e.private.value then
      match StoreZoneType(start, ZoneTypePrivate)
      case None => None
      case Some(props) =>
        var vnet := VirtualNetworkId(subscriptionId, e.resourceGroup.value.name.value, e.virtualNetworkName);
        Some(props.(registrationVirtualNetworks := Some([SubResource(Some(vnet.String()))])))
    else StoreZoneType(start, ZoneTypePublic)
  }

  /**
   * The properties as the render builds them: from an empty
   * `ZoneProperties{}`, whose zone-type pointer is nil, so that the store
   * panics (`None`) for every zone, public or private.
   */
  function PropertiesAsWritten(subscriptionId: string, e: DnsZone): (r: Option<ZoneProperties>)
    requires e.private.Some? && HasGroupName(e.resourceGroup)
    ensures r.None?
  {
    FillProperties(ZoneProperties(None, None), subscriptionId, e)
  }

  /**
   * The properties the render evidently means to send: the zone type set to
   * private or public as `Private` says, and for a private zone exactly one
   * registration network, the desired virtual network of the desired
   * resource group.
   */
  function Properties(subscriptionId: string, e: DnsZone): (p: ZoneProperties)
    requires e.private.Some? && HasGroupName(e.resourceGroup)
  {
    if e.private.value then
      var vnet := VirtualNetworkId(subscriptionId, e.resourceGroup.value.name.value, e.virtualNetworkName);
      ZoneProperties(Some(ZoneTypePrivate), Some([SubResource(Some(vnet.String()))]))
    else ZoneProperties(Some(ZoneTypePublic), None)
  }

  /**
   * A zone is rendered private iff `Private` is set; a private zone registers
   * one network, whose ID splits back into the subscription, the resource
   * group and the virtual network's name; a public zone registers none.
   */
  lemma PropertiesSelectZoneType(subscriptionId: string, e: DnsZone)
    requires e.private.Some? && HasGroupName(e.resourceGroup)
    requires IsSegment(subscriptionId) && IsSegment(e.resourceGroup.value.name.value) && IsSegment(e.virtualNetworkName)
    ensures Properties(subscriptionId, e).zoneType == Some(ZoneTypePrivate) <==> e.private.value
    ensures Properties(subscriptionId, e).zoneType == Some(ZoneTypePublic) <==> !e.private.value
    ensures Properties(subscriptionId, e).registrationVirtualNetworks.Some? <==> e.private.value
    ensures e.private.value ==>
      var refs := Properties(subscriptionId, e).registrationVirtualNetworks.value;
      |refs| == 1 && refs[0].id.Some? &&
      Strings.Split(refs[0].id.value, '/')
        == NetworkResourceSegments(subscriptionId, e.resourceGroup.value.name.value, "virtualNetworks", e.virtualNetworkName)
  {
    if e.private.value {
      assert IsSegment("virtualNetworks");
      NetworkResourceIdSplits(subscriptionId, e.resourceGroup.value.name.value, "virtualNetworks", e.virtualNetworkName);
    }
  }

  /**
   * Sends one create-or-update keyed by the desired resource group and name,
   * carrying the zone's name, region, tags and properties, whether or not the
   * zone exists, with the properties as intended; `PropertiesAsWritten` is
   * the render as written, which fails before the call.
   */
  method RenderAzure(backend: Backend<ZoneCall>, region: string, subscriptionId: string, a: Option<DnsZone>, e: DnsZone, changes: DnsZone)
    returns (err: Option<CloudError>)
    requires e.name.Some? && e.private.Some? && HasGroupName(e.resourceGroup)
    modifies backend
    ensures backend.trace == old(backend.trace) +
      [CreateOrUpdateZone(e.resourceGroup.value.name.value, e.name.value, ZonePayload(e.name, region, e.tags, Properties(subscriptionId, e)))]
    ensures err == Outcome(|old(backend.trace)|, backend.failing)
  {
    var props := ZoneProperties(None, None);
    if e.private.value {
      props := props.(zoneType := Some(ZoneTypePrivate));
      var vnet := VirtualNetworkId(subscriptionId, e.resourceGroup.value.name.value, e.virtualNetworkName);
      props := props.(registrationVirtualNetworks := Some([SubResource(Some(vnet.String()))]));
    } else {
      props := props.(zoneType := Some(ZoneTypePublic));
    }
    var zone := ZonePayload(e.name, region, e.tags, props);
    err := backend.Call(CreateOrUpdateZone(e.resourceGroup.value.name.value, e.name.value, zone));
  }

  /** Before the delta run, the cluster tags are merged into the zone's tags; nothing else changes. */
  function TagsForRun(dz: DnsZone, addClusterTags: Tags -> Tags): (r: DnsZone)
    ensures r.tags == addClusterTags(dz.tags)
    ensures r.(tags := dz.tags) == dz
  {
    dz.(tags := addClusterTags(dz.tags))
  }
}
