/**
 * The network-security-group task (networksecuritygroup.go): find, check,
 * and render a group together with its rules, translating each rule task to
 * the SDK's security rule and each referenced application security group to
 * its resource ID.
 */
module AzureTasksNsg {
  import opened Wrappers
  import opened AzureTaskCommon
  import opened CloudBackend
  import opened AzureTasksAsg

  /** A rule task; every field is a pointer that may be nil. */
  datatype SecurityGroupRule = SecurityGroupRule(
    name: Option<string>,
    sourceCIDRs: Option<seq<string>>,
    destinationCIDRs: Option<seq<string>>,
    sourceCIDR: Option<string>,
    destinationCIDR: Option<string>,
    protocol: Option<string>,
    priority: Option<Int32>,
    accessType: Option<string>,
    fromPort: Option<string>,
    toPort: Option<string>,
    sourceApplicationSecurityGroups: Option<seq<ApplicationSecurityGroup>>,
    destinationApplicationSecurityGroups: Option<seq<ApplicationSecurityGroup>>,
    egress: Option<bool>)

  datatype NetworkSecurityGroup = NetworkSecurityGroup(
    name: Option<string>,
    lifecycle: Lifecycle,
    resourceGroup: Option<ResourceGroup>,
    id: Option<string>,
    description: Option<string>,
    shared: Option<bool>,
    tags: Tags,
    rules: seq<SecurityGroupRule>)

  /** A reference to another resource by its ID. */
  datatype SubResource = SubResource(id: string)

  /** The SDK security rule a rendered group carries. */
  datatype SecurityRule = SecurityRule(
    name: Option<string>,
    protocol: string,
    priority: Option<Int32>,
    access: string,
    direction: string,
    sourcePortRange: Option<string>,
    destinationPortRange: Option<string>,
    sourceApplicationSecurityGroups: Option<seq<SubResource>>,
    destinationApplicationSecurityGroups: Option<seq<SubResource>>,
    sourceAddressPrefixes: Option<seq<string>>,
    destinationAddressPrefixes: Option<seq<string>>,
    sourceAddressPrefix: Option<string>,
    destinationAddressPrefix: Option<string>)

  /** The SDK group a create-or-update sends. */
  datatype NsgPayload = NsgPayload(name: string, location: string, tags: Tags, rules: seq<SecurityRule>)

  /** A call to the network-security-group service. */
  datatype NsgCall = CreateOrUpdateNsg(resourceGroup: string, name: string, payload: NsgPayload)

  /** The parts of an application security group's resource ID. */
  datatype ApplicationSecurityGroupID = ApplicationSecurityGroupID(subscriptionId: string, resourceGroupName: string, applicationSecurityGroupName: string)
  {
    /** `/subscriptions/{sub}/resourceGroups/{rg}/providers/Microsoft.Network/applicationSecurityGroups/{name}`. */
    function String(): string
    {
      NetworkResourceId(subscriptionId, resourceGroupName, "applicationSecurityGroups", applicationSecurityGroupName)
    }
  }

  /** Two group IDs with one-segment parts are equal only when their parts are. */
  lemma ApplicationSecurityGroupIDInjective(x: ApplicationSecurityGroupID, y: ApplicationSecurityGroupID)
    requires IsSegment(x.subscriptionId) && IsSegment(x.resourceGroupName) && IsSegment(x.applicationSecurityGroupName)
    requires IsSegment(y.subscriptionId) && IsSegment(y.resourceGroupName) && IsSegment(y.applicationSecurityGroupName)
    requires x.String() == y.String()
    ensures x == y
  {
    assert IsSegment("applicationSecurityGroups");
    NetworkResourceIdInjective(x.subscriptionId, x.resourceGroupName, "applicationSecurityGroups", x.applicationSecurityGroupName,
                               y.subscriptionId, y.resourceGroupName, "applicationSecurityGroups", y.applicationSecurityGroupName);
  }

  predicate AllGroupsNamed(groups: seq<ApplicationSecurityGroup>)
  {
    forall i :: 0 <= i < |groups| ==> groups[i].name.Some?
  }

  /**
   * What translating a rule dereferences: egress, protocol and access, and,
   * when both group lists are set, each group's name and (if there is a
   * group at all) the security group's resource-group name.
   */
  predicate Translatable(e: SecurityGroupRule, nsg: NetworkSecurityGroup)
  {
    && e.egress.Some? && e.protocol.Some? && e.accessType.Some?
    && (e.sourceApplicationSecurityGroups.Some? && e.destinationApplicationSecurityGroups.Some? ==>
          && AllGroupsNamed(e.sourceApplicationSecurityGroups.value)
          && AllGroupsNamed(e.destinationApplicationSecurityGroups.value)
          && (|e.sourceApplicationSecurityGroups.value| + |e.destinationApplicationSecurityGroups.value| > 0 ==> HasGroupName(nsg.resourceGroup)))
  }

  /** The references to `groups`, in order, each by its resource ID in resource group `rg`. */
  function GroupRefs(subscriptionId: string, rg: string, groups: seq<ApplicationSecurityGroup>): seq<SubResource>
    requires AllGroupsNamed(groups)
  {
    seq(|groups|, i requires 0 <= i < |groups| => SubResource(ApplicationSecurityGroupID(subscriptionId, rg, groups[i].name.value).String()))
  }

  /** The SDK rule for a rule task of `nsg`. */
  function RuleFromTask(subscriptionId: string, e: SecurityGroupRule, nsg: NetworkSecurityGroup): SecurityRule
    requires Translatable(e, nsg)
  {
    var direction := if e.egress.value then "Outbound" else "Inbound";
    var both := e.sourceApplicationSecurityGroups.Some? && e.destinationApplicationSecurityGroups.Some?;
    var src := if both then e.sourceApplicationSecurityGroups.value else [];
    var dst := if both then e.destinationApplicationSecurityGroups.value else [];
    var rg := if |src| + |dst| > 0 then nsg.resourceGroup.value.name.value else "";
    SecurityRule(e.name, e.protocol.value, e.priority, e.accessType.value, direction, e.fromPort, e.toPort,
      if both then Some(GroupRefs(subscriptionId, rg, src)) else None,
      if both then Some(GroupRefs(subscriptionId, rg, dst)) else None,
      e.sourceCIDRs, e.destinationCIDRs, e.sourceCIDR, e.destinationCIDR)
  }

  /** Translates one rule task, building the group references one at a time. */
  method GetSecurityRuleFromTask(subscriptionId: string, e: SecurityGroupRule, nsg: NetworkSecurityGroup) returns (sr: SecurityRule)
    requires Translatable(e, nsg)
    ensures sr == RuleFromTask(subscriptionId, e, nsg)
  {
    var direction := "Inbound";
    if e.egress.value {
      direction := "Outbound";
    }
    sr := SecurityRule(e.name, e.protocol.value, e.priority, e.accessType.value, direction, e.fromPort, e.toPort,
      None, None, None, None, None, None);

    if e.sourceApplicationSecurityGroups.Some? && e.destinationApplicationSecurityGroups.Some? {
      var src := e.sourceApplicationSecurityGroups.value;
      var dst := e.destinationApplicationSecurityGroups.value;
      ghost var rg := if |src| + |dst| > 0 then nsg.resourceGroup.value.name.value else "";
      var sourceAsg: seq<SubResource> := [];
      for i := 0 to |src|
        invariant sourceAsg == GroupRefs(subscriptionId, rg, src[..i])
      {
        var id := ApplicationSecurityGroupID(subscriptionId, nsg.resourceGroup.value.name.value, src[i].name.value);
        sourceAsg := sourceAsg + [SubResource(id.String())];
      }
      var destinationAsg: seq<SubResource> := [];
      for i := 0 to |dst|
        invariant destinationAsg == GroupRefs(subscriptionId, rg, dst[..i])
      {
        var id := ApplicationSecurityGroupID(subscriptionId, nsg.resourceGroup.value.name.value, dst[i].name.value);
        destinationAsg := destinationAsg + [SubResource(id.String())];
      }
      assert src[..|src|] == src && dst[..|dst|] == dst;
      sr := sr.(sourceApplicationSecurityGroups := Some(sourceAsg), destinationApplicationSecurityGroups := Some(destinationAsg));
    }

    if e.sourceCIDRs.Some? {
      sr := sr.(sourceAddressPrefixes := e.sourceCIDRs);
    }
    if e.destinationCIDRs.Some? {
      sr := sr.(destinationAddressPrefixes := e.destinationCIDRs);
    }
    if e.sourceCIDR.Some? {
      sr := sr.(sourceAddressPrefix := e.sourceCIDR);
    }
    if e.destinationCIDR.Some? {
      sr := sr.(destinationAddressPrefix := e.destinationCIDR);
    }
  }

  /**
   * A translated rule is `"Outbound"` iff the task is egress; protocol,
   * priority, access and the port range are copied; each address field is
   * the task's, absent when the task's is nil; group references are set iff
   * both group lists are, one ID per group in order, each naming the group
   * in the security group's resource group.
   */
  lemma RuleTranslation(subscriptionId: string, e: SecurityGroupRule, nsg: NetworkSecurityGroup)
    requires Translatable(e, nsg)
    ensures var sr := RuleFromTask(subscriptionId, e, nsg);
      && (sr.direction == "Outbound" <==> e.egress.value)
      && (sr.direction == "Inbound" <==> !e.egress.value)
      && sr.name == e.name && sr.protocol == e.protocol.value && sr.priority == e.priority && sr.access == e.accessType.value
      && sr.sourcePortRange == e.fromPort && sr.destinationPortRange == e.toPort
      && sr.sourceAddressPrefixes == e.sourceCIDRs && sr.destinationAddressPrefixes == e.destinationCIDRs
      && sr.sourceAddressPrefix == e.sourceCIDR && sr.destinationAddressPrefix == e.destinationCIDR
      && (sr.sourceApplicationSecurityGroups.Some? <==> e.sourceApplicationSecurityGroups.Some? && e.destinationApplicationSecurityGroups.Some?)
      && (sr.destinationApplicationSecurityGroups.Some? <==> sr.sourceApplicationSecurityGroups.Some?)
      && (sr.sourceApplicationSecurityGroups.Some? ==>
            var src := e.sourceApplicationSecurityGroups.value;
            && |sr.sourceApplicationSecurityGroups.value| == |src|
            && forall i :: 0 <= i < |src| ==>
                 sr.sourceApplicationSecurityGroups.value[i].id
                   == NetworkResourceId(subscriptionId, nsg.resourceGroup.value.name.value, "applicationSecurityGroups", src[i].name.value))
      && (sr.destinationApplicationSecurityGroups.Some? ==>
            var dst := e.destinationApplicationSecurityGroups.value;
            && |sr.destinationApplicationSecurityGroups.value| == |dst|
            && forall i :: 0 <= i < |dst| ==>
                 sr.destinationApplicationSecurityGroups.value[i].id
                   == NetworkResourceId(subscriptionId, nsg.resourceGroup.value.name.value, "applicationSecurityGroups", dst[i].name.value))
  {
  }

  /** The task `Find` reports for a listed match: desired name, lifecycle and resource-group name, and the listed tags. */
  function Discovered(nsg: NetworkSecurityGroup, entry: CloudResource): (r: NetworkSecurityGroup)
    requires nsg.resourceGroup.Some?
    ensures r.name == nsg.name && r.lifecycle == nsg.lifecycle
    ensures r.resourceGroup == Some(ResourceGroup(nsg.resourceGroup.value.name))
    ensures r.tags == entry.tags
    ensures r.id.None? && r.description.None? && r.shared.None? && r.rules == []
  {
    NetworkSecurityGroup(nsg.name, nsg.lifecycle, Some(ResourceGroup(nsg.resourceGroup.value.name)), None, None, None, entry.tags, [])
  }

  /** Reports the first listed group with the desired name; no match is absence, not an error. */
  method Find(nsg: NetworkSecurityGroup, listing: Result<seq<CloudResource>, CloudError>)
    returns (r: Result<Option<NetworkSecurityGroup>, CloudError>)
    requires HasGroupName(nsg.resourceGroup)
    requires listing.Success? ==> Scannable(listing.value, nsg.name)
    ensures listing.Failure? ==> r == Failure(listing.error)
    ensures listing.Success? ==> r.Success? && (r.value.None? <==> FoundAt(listing.value, nsg.name).None?)
    ensures listing.Success? && r.value.Some? ==> r.value == Some(Discovered(nsg, listing.value[FoundAt(listing.value, nsg.name).value]))
  {
    match listing
    case Failure(e) =>
      return Failure(e);
    case Success(entries) =>
      var found := FindFirst(entries, nsg.name);
      if found.None? {
        return Success(None);
      }
      return Success(Some(Discovered(nsg, entries[found.value])));
  }

  /** A new group needs a name; an existing one may not be renamed. */
  function CheckChanges(a: Option<NetworkSecurityGroup>, e: NetworkSecurityGroup, changes: NetworkSecurityGroup): (r: Option<FieldError>)
    ensures a.None? ==> (r == Some(RequiredField("Name")) <==> e.name.None?) && (r.None? <==> e.name.Some?)
    ensures a.Some? ==> (r == Some(CannotChangeField("Name")) <==> changes.name.Some?) && (r.None? <==> changes.name.None?)
  {
    CheckNameChanges(a.Some?, e.name, changes.name)
  }

  predicate AllTranslatable(e: NetworkSecurityGroup)
  {
    forall i :: 0 <= i < |e.rules| ==> Translatable(e.rules[i], e)
  }

  /** The group a create-or-update sends: name, region, tags, and one translated rule per rule task, in order. */
  function Payload(region: string, subscriptionId: string, e: NetworkSecurityGroup): NsgPayload
    requires e.name.Some? && AllTranslatable(e)
  {
    NsgPayload(e.name.value, region, e.tags,
      seq(|e.rules|, i requires 0 <= i < |e.rules| => RuleFromTask(subscriptionId, e.rules[i], e)))
  }

  /** Translates every rule task in order and sends one create-or-update keyed by resource group and name. */
  method RenderAzure(backend: Backend<NsgCall>, region: string, subscriptionId: string, a: Option<NetworkSecurityGroup>, e: NetworkSecurityGroup, changes: NetworkSecurityGroup)
    returns (err: Option<CloudError>)
    requires HasGroupName(e.resourceGroup) && e.name.Some? && AllTranslatable(e)
    modifies backend
    ensures backend.trace == old(backend.trace) + [CreateOrUpdateNsg(e.resourceGroup.value.name.value, e.name.value, Payload(region, subscriptionId, e))]
    ensures err == Outcome(|old(backend.trace)|, backend.failing)
  {
    var rules: seq<SecurityRule> := [];
    for i := 0 to |e.rules|
      invariant |rules| == i
      invariant forall j :: 0 <= j < i ==> rules[j] == RuleFromTask(subscriptionId, e.rules[j], e)
      invariant backend.trace == old(backend.trace)
    {
      var rule := GetSecurityRuleFromTask(subscriptionId, e.rules[i], e);
      rules := rules + [rule];
    }
    var nsg := NsgPayload(e.name.value, region, e.tags, rules);
    assert nsg == Payload(region, subscriptionId, e);
    err := backend.Call(CreateOrUpdateNsg(e.resourceGroup.value.name.value, e.name.value, nsg));
  }

  /** Before the delta run, the cluster tags are merged into the group's tags; nothing else changes. */
  function TagsForRun(nsg: NetworkSecurityGroup, addClusterTags: Tags -> Tags): (r: NetworkSecurityGroup)
    ensures r.tags == addClusterTags(nsg.tags)
    ensures r.(tags := nsg.tags) == nsg
  {
    nsg.(tags := addClusterTags(nsg.tags))
  }
}
