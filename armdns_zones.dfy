/**
 * The zone collection of the Azure DNS provider (zones.go). `List` drains
 * the public zones' pager, then appends the first page of values of one
 * private list call; `Add`, `Remove` and `New` touch no service. List
 * responses are parameters.
 */
module AzureDnsZones {
  import opened Wrappers
  import opened AzureDns
  import opened AzureDnsZone
  import opened CloudBackend

  /** A listed public SDK zone as the facade's zone, bound to this collection. */
  function PublicZone(zones: Zones, v: ZoneImpl): Zone
  {
    Zone(v, EmptyZoneImpl, PublicZoneType, zones)
  }

  /** A listed private SDK zone as the facade's zone, bound to this collection. */
  function PrivateZone(zones: Zones, v: ZoneImpl): Zone
  {
    Zone(EmptyZoneImpl, v, PrivateZoneType, zones)
  }

  function PublicZones(zones: Zones, vs: seq<ZoneImpl>): seq<Zone>
  {
    seq(|vs|, i requires 0 <= i < |vs| => PublicZone(zones, vs[i]))
  }

  function PrivateZones(zones: Zones, vs: seq<ZoneImpl>): seq<Zone>
  {
    seq(|vs|, i requires 0 <= i < |vs| => PrivateZone(zones, vs[i]))
  }

  /**
   * What `List` returns: nothing and the error when a public page fails;
   * the public zones and the error when the private list call fails;
   * otherwise the public zones followed by the private ones.
   */
  function Listed(zones: Zones, publicPages: seq<Result<seq<ZoneImpl>, CloudError>>, privateList: Result<seq<ZoneImpl>, CloudError>): (seq<Zone>, Option<CloudError>)
  {
    match Drain(publicPages)
    case Failure(e) => ([], Some(e))
    case Success(pubs) =>
      match privateList
      case Failure(e) => (PublicZones(zones, pubs), Some(e))
      case Success(privs) => (PublicZones(zones, pubs) + PrivateZones(zones, privs), None)
  }

  /** Lists the public zones page by page, then the private ones. */
  method List(zones: Zones, publicPages: seq<Result<seq<ZoneImpl>, CloudError>>, privateList: Result<seq<ZoneImpl>, CloudError>)
    returns (zoneList: seq<Zone>, err: Option<CloudError>)
    ensures (zoneList, err) == Listed(zones, publicPages, privateList)
  {
    zoneList := [];
    ghost var acc: seq<ZoneImpl> := [];
    var p := 0;
    while p < |publicPages|
      invariant 0 <= p <= |publicPages|
      invariant Drain(publicPages[..p]) == Success(acc)
      invariant zoneList == PublicZones(zones, acc)
    {
      assert publicPages[..p + 1][..p] == publicPages[..p];
      match publicPages[p]
      case Failure(e) =>
        DrainFailureSticks(publicPages, p + 1);
        return [], Some(e);
      case Success(page) =>
        var j := 0;
        while j < |page|
          invariant 0 <= j <= |page|
          invariant zoneList == PublicZones(zones, acc + page[..j])
        {
          zoneList := zoneList + [PublicZone(zones, page[j])];
          j := j + 1;
        }
        assert page[..j] == page;
        acc := acc + page;
        p := p + 1;
    }
    assert publicPages[..p] == publicPages;

    match privateList
    case Failure(e) =>
      return zoneList, Some(e);
    case Success(values) =>
      ghost var pubs := zoneList;
      var j := 0;
      while j < |values|
        invariant 0 <= j <= |values|
        invariant zoneList == pubs + PrivateZones(zones, values[..j])
      {
        zoneList := zoneList + [PrivateZone(zones, values[j])];
        j := j + 1;
      }
      assert values[..j] == values;
      return zoneList, None;
  }

  /**
   * When every call succeeds, the public zones come first, in page order and
   * tagged `"public"`, then the private ones, tagged `"private"`; each is the
   * listed SDK zone and refers to this collection.
   */
  lemma ListPublicThenPrivate(zones: Zones, values: seq<seq<ZoneImpl>>, privs: seq<ZoneImpl>)
    ensures var (list, err) := Listed(zones, Pages(values), Success(privs));
      var pubs := Concat(values);
      && err.None?
      && |list| == |pubs| + |privs|
      && (forall i :: 0 <= i < |pubs| ==> list[i].zoneType == PublicZoneType && list[i].Active() == pubs[i])
      && (forall i :: |pubs| <= i < |list| ==> list[i].zoneType == PrivateZoneType && list[i].Active() == privs[i - |pubs|])
      && (forall i :: 0 <= i < |list| ==> list[i].zones == zones)
  {
    DrainConcatenates(values);
  }

  /** A failing public page discards everything: no zones, that page's error. */
  lemma PublicPageErrorDiscards(zones: Zones, publicPages: seq<Result<seq<ZoneImpl>, CloudError>>, privateList: Result<seq<ZoneImpl>, CloudError>, j: nat)
    requires j < |publicPages| && publicPages[j].Failure?
    ensures Listed(zones, publicPages, privateList).0 == []
    ensures Listed(zones, publicPages, privateList).1.Some?
  {
    DrainSucceedsIffNoPageFails(publicPages);
  }

  /** A failing private list call keeps the public zones collected so far and returns its error. */
  lemma PrivateErrorKeepsPublicZones(zones: Zones, values: seq<seq<ZoneImpl>>, e: CloudError)
    ensures Listed(zones, Pages(values), Failure(e)) == (PublicZones(zones, Concat(values)), Some(e))
  {
    DrainConcatenates(values);
  }

  /** `Add` hands back the zone it was given and reports no error. */
  function Add(zones: Zones, zone: Zone): (r: (Zone, Option<CloudError>))
    ensures r == (zone, None)
  {
    (zone, None)
  }

  /** `Remove` reports no error and removes nothing. */
  function Remove(zones: Zones, zone: Zone): (err: Option<CloudError>)
    ensures err.None?
  {
    None
  }

  /** `New` ignores the name: an empty zone type, neither SDK zone set, bound to this collection. */
  function New(zones: Zones, name: string): (r: (Zone, Option<CloudError>))
    ensures r.1.None?
    ensures r.0.zoneType == "" && !r.0.IsPublic()
    ensures r.0.publicImpl == EmptyZoneImpl && r.0.privateImpl == EmptyZoneImpl
    ensures r.0.zones == zones
    ensures !r.0.HasName()
  {
    (Zone(EmptyZoneImpl, EmptyZoneImpl, "", zones), None)
  }

  /** The name passed to `New` makes no difference. */
  lemma NewIgnoresName(zones: Zones, a: string, b: string)
    ensures New(zones, a) == New(zones, b)
  {
  }
}
