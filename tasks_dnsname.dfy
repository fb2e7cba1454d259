/**
 * The DNS record-set task (dnsname.go): find the record set by name in the
 * zone's listing, require a name on creation, and render it as one
 * create-or-update of an A record set aimed at a load balancer. The name
 * relative to the zone is computed by literal substring removal, unlike the
 * DNS provider's regular-expression resolver.
 */
module AzureTasksDnsName {
  import opened Wrappers
  import opened AzureTaskCommon
  import opened CloudBackend
  import Strings
  import AzureDns

  datatype RecordSet = RecordSet(
    name: Option<string>,
    lifecycle: Lifecycle,
    resourceGroup: Option<ResourceGroup>,
    fqdn: Option<string>,
    virtualNetworkName: Option<string>,
    dnsZone: Option<string>,
    relativeRecordSetName: Option<string>,
    loadBalancerName: Option<string>,
    shared: Option<bool>,
    private: Option<bool>)

  /** The SDK record set a create-or-update sends. */
  datatype RecordSetPayload = RecordSetPayload(name: Option<string>, recordType: Option<string>, fqdn: Option<string>, targetResourceId: Option<string>)

  /** A call to the record-set service. */
  datatype RecordSetCall = CreateOrUpdateRecordSet(resourceGroup: string, zoneName: string, relativeName: string, recordType: string, payload: RecordSetPayload)

  const RecordTypeA := "A"

  /**
   * The task `Find` reports for a listed match: the desired name, lifecycle
   * and resource-group name; nothing of the listed record set is copied.
   */
  function Discovered(rs: RecordSet): (r: RecordSet)
    requires rs.resourceGroup.Some?
    ensures r.name == rs.name && r.lifecycle == rs.lifecycle
    ensures r.resourceGroup == Some(ResourceGroup(rs.resourceGroup.value.name))
    ensures r.fqdn.None? && r.virtualNetworkName.None? && r.dnsZone.None? && r.relativeRecordSetName.None?
    ensures r.loadBalancerName.None? && r.shared.None? && r.private.None?
  {
    RecordSet(rs.name, rs.lifecycle, Some(ResourceGroup(rs.resourceGroup.value.name)), None, None, None, None, None, None, None)
  }

  /**
   * Lists the record sets of the desired zone and reports whether one has the
   * desired name; no match is absence, not an error.
   */
  method Find(rs: RecordSet, listing: Result<seq<CloudResource>, CloudError>)
    returns (r: Result<Option<RecordSet>, CloudError>)
    requires HasGroupName(rs.resourceGroup) && rs.dnsZone.Some?
    requires listing.Success? ==> Scannable(listing.value, rs.name)
    ensures listing.Failure? ==> r == Failure(listing.error)
    ensures listing.Success? ==> r.Success? && (r.value.None? <==> FoundAt(listing.value, rs.name).None?)
    ensures listing.Success? && r.value.Some? ==> r.value == Some(Discovered(rs))
  {
    match listing
    case Failure(e) =>
      return Failure(e);
    case Success(entries) =>
      var found := FindFirst(entries, rs.name);
      if found.None? {
        return Success(None);
      }
      return Success(Some(Discovered(rs)));
  }

  /** A new record set needs a name; an existing one accepts every change. */
  function CheckChanges(a: Option<RecordSet>, e: RecordSet, changes: RecordSet): (r: Option<FieldError>)
    ensures r.Some? <==> a.None? && e.name.None?
    ensures r.Some? ==> r == Some(RequiredField("Name"))
  {
    if a.None? && e.name.None? then Some(RequiredField("Name")) else None
  }

  /** A rename of an existing record set passes this check while the zone and group tasks reject it. */
  lemma RenameAccepted(a: RecordSet, e: RecordSet, changes: RecordSet)
    requires changes.name.Some?
    ensures CheckChanges(Some(a), e, changes).None?
    ensures CheckNameChanges(true, e.name, changes.name) == Some(CannotChangeField("Name"))
  {
  }

  /** `strings.ReplaceAll(fqdn, "." + zone, "")`: every literal `"." + zone` removed. */
  function RelativeName(fqdn: string, zone: string): (r: string)
    ensures |r| <= |fqdn|
  {
    Strings.ReplaceAll(fqdn, "." + zone)
  }

  /** The record set the render sends: the desired name and FQDN, type A, aimed at the load balancer. */
  function Payload(e: RecordSet): RecordSetPayload
    requires e.name.Some? && e.loadBalancerName.Some?
  {
    RecordSetPayload(Some(e.name.value), Some(RecordTypeA), e.fqdn, Some(e.loadBalancerName.value))
  }

  /**
   * Sends one create-or-update of an A record set in the desired zone, keyed
   * by the name relative to that zone, whether or not the record set exists.
   */
  method RenderAzure(backend: Backend<RecordSetCall>, a: Option<RecordSet>, e: RecordSet, changes: RecordSet)
    returns (err: Option<CloudError>)
    requires HasGroupName(e.resourceGroup) && e.loadBalancerName.Some? && e.name.Some?
    requires e.fqdn.Some? && e.dnsZone.Some?
    modifies backend
    ensures backend.trace == old(backend.trace) +
      [CreateOrUpdateRecordSet(e.resourceGroup.value.name.value, e.dnsZone.value,
                               RelativeName(e.fqdn.value, e.dnsZone.value), RecordTypeA, Payload(e))]
    ensures err == Outcome(|old(backend.trace)|, backend.failing)
  {
    var lbName := e.loadBalancerName.value;
    var recordSet := RecordSetPayload(Some(e.name.value), Some(RecordTypeA), e.fqdn, Some(lbName));
    var relativeName := Strings.ReplaceAll(e.fqdn.value, "." + e.dnsZone.value);
    err := backend.Call(CreateOrUpdateRecordSet(e.resourceGroup.value.name.value, e.dnsZone.value, relativeName, RecordTypeA, recordSet));
  }

  /** A literal occurrence of `"." + zone` is also a match of the provider's regular expression. */
  lemma OccurrenceIsMatch(s: string, zone: string, i: nat)
    requires Strings.OccursAt(s, "." + zone, i)
    ensures AzureDns.MatchesAt(s, zone, i)
  {
    var pat := "." + zone;
    assert s[i] == s[i..i + |pat|][0] == '.';
    forall k | 0 <= k < |zone| ensures AzureDns.PatternCharMatches(zone[k], s[i + 1 + k]) {
      assert s[i + 1 + k] == s[i..i + |pat|][1 + k] == zone[k];
    }
  }

  /**
   * On a one-line name `r + "." + zone` with no earlier match of the
   * provider's regular expression, the literal removal and the provider's
   * resolver agree: both give `r`.
   */
  lemma ResolversAgreeOnZoneSuffix(r: string, zone: string)
    requires AzureDns.IsDnsName(zone) && '\n' !in r
    requires AzureDns.NoMatchBefore(r + "." + zone, zone, |r|)
    ensures RelativeName(r + "." + zone, zone) == r
    ensures AzureDns.AzureRelativeRecordSetName(r + "." + zone, zone) == r
  {
    var pat := "." + zone;
    var s := r + pat + "";
    assert s == r + "." + zone;
    forall i: nat | i < |r| ensures !Strings.OccursAt(s, pat, i) {
      if Strings.OccursAt(s, pat, i) {
        OccurrenceIsMatch(s, zone, i);
      }
    }
    Strings.ReplaceAllSkipsFirst(r, pat, "");
    assert r + "" == r;
    AzureDns.StripsZoneSuffix(r, zone);
  }

  /** The literal removal keeps text after the zone: `"www.example.com.extra"` gives `"www.extra"`. */
  lemma LiteralKeepsTrailingLabel()
    ensures RelativeName("www.example.com.extra", "example.com") == "www.extra"
  {
    var s, pat := "www.example.com.extra", ".example.com";
    assert "www" + ".extra" == "www.extra";
    assert "." + "example.com" == pat;
    assert s == "www" + pat + ".extra";
    forall i: nat | i < 3 ensures !Strings.OccursAt(s, pat, i) {
      if i + |pat| <= |s| {
        assert s[i..i + |pat|][0] == s[i] != pat[0];
      }
    }
    Strings.ReplaceAllSkipsFirst("www", pat, ".extra");
  }

  /** The provider's trailing `.*` swallows text after the zone: `"www.example.com.extra"` gives `"www"`. */
  lemma PatternSwallowsTrailingLabel()
    ensures AzureDns.AzureRelativeRecordSetName("www.example.com.extra", "example.com") == "www"
  {
    var s, z := "www.example.com.extra", "example.com";
    forall q: nat | q < 3 ensures !AzureDns.MatchesAt(s, z, q) {
      assert !AzureDns.PatternCharMatches(z[0], s[q + 1]);
    }
    forall k | 0 <= k < |z| ensures AzureDns.PatternCharMatches(z[k], s[4 + k]) {
      assert s[4 + k] == z[k];
    }
    AzureDns.ResolvesAt(s, z, 3);
  }

  /** Text after the zone tells the two resolvers apart. */
  lemma ExampleTrailingLabel()
    ensures RelativeName("www.example.com.extra", "example.com")
         != AzureDns.AzureRelativeRecordSetName("www.example.com.extra", "example.com")
  {
    LiteralKeepsTrailingLabel();
    PatternSwallowsTrailingLabel();
    assert "www.extra" != "www" by { assert |"www.extra"| != |"www"|; }
  }
}
