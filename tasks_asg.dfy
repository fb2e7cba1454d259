/**
 * The application-security-group task (applicationsecuritygroup.go): find
 * the group by name in a listing, check that it is not renamed, and render
 * it as one create-or-update.
 */
module AzureTasksAsg {
  import opened Wrappers
  import opened AzureTaskCommon
  import opened CloudBackend

  datatype ApplicationSecurityGroup = ApplicationSecurityGroup(
    name: Option<string>,
    lifecycle: Lifecycle,
    resourceGroup: Option<ResourceGroup>,
    id: Option<string>,
    description: Option<string>,
    shared: Option<bool>,
    tags: Tags)

  /** The SDK group a create-or-update sends. */
  datatype AsgPayload = AsgPayload(name: Option<string>, location: string, tags: Tags)

  /** A call to the application-security-group service. */
  datatype AsgCall = CreateOrUpdateAsg(resourceGroup: string, name: string, payload: AsgPayload)

  /**
   * The task `Find` reports for a listed match: the desired name, lifecycle
   * and resource-group name, and the listed tags; nothing else is set.
   */
  function Discovered(asg: ApplicationSecurityGroup, entry: CloudResource): (r: ApplicationSecurityGroup)
    requires asg.resourceGroup.Some?
    ensures r.name == asg.name && r.lifecycle == asg.lifecycle
    ensures r.resourceGroup == Some(ResourceGroup(asg.resourceGroup.value.name))
    ensures r.tags == entry.tags
    ensures r.id.None? && r.description.None? && r.shared.None?
  {
    ApplicationSecurityGroup(asg.name, asg.lifecycle, Some(ResourceGroup(asg.resourceGroup.value.name)), None, None, None, entry.tags)
  }

  /**
   * Lists the groups of the resource group and reports the first one with
   * the desired name; no match is absence, not an error.
   */
  method Find(asg: ApplicationSecurityGroup, listing: Result<seq<CloudResource>, CloudError>)
    returns (r: Result<Option<ApplicationSecurityGroup>, CloudError>)
    requires HasGroupName(asg.resourceGroup)
    requires listing.Success? ==> Scannable(listing.value, asg.name)
    ensures listing.Failure? ==> r == Failure(listing.error)
    ensures listing.Success? ==> r.Success? && (r.value.None? <==> FoundAt(listing.value, asg.name).None?)
    ensures listing.Success? && r.value.Some? ==> r.value == Some(Discovered(asg, listing.value[FoundAt(listing.value, asg.name).value]))
  {
    match listing
    case Failure(e) =>
      return Failure(e);
    case Success(entries) =>
      var found := FindFirst(entries, asg.name);
      if found.None? {
        return Success(None);
      }
      return Success(Some(Discovered(asg, entries[found.value])));
  }

  /** A new group needs a name; an existing one may not be renamed. */
  function CheckChanges(a: Option<ApplicationSecurityGroup>, e: ApplicationSecurityGroup, changes: ApplicationSecurityGroup): (r: Option<FieldError>)
    ensures a.None? ==> (r == Some(RequiredField("Name")) <==> e.name.None?) && (r.None? <==> e.name.Some?)
    ensures a.Some? ==> (r == Some(CannotChangeField("Name")) <==> changes.name.Some?) && (r.None? <==> changes.name.None?)
  {
    CheckNameChanges(a.Some?, e.name, changes.name)
  }

  /** The group a create-or-update sends: the desired name and tags, in the cloud's region. */
  function Payload(region: string, e: ApplicationSecurityGroup): AsgPayload
  {
    AsgPayload(e.name, region, e.tags)
  }

  /** Sends one create-or-update keyed by the desired resource group and name, whether or not the group exists. */
  method RenderAzure(backend: Backend<AsgCall>, region: string, a: Option<ApplicationSecurityGroup>, e: ApplicationSecurityGroup, changes: ApplicationSecurityGroup)
    returns (err: Option<CloudError>)
    requires HasGroupName(e.resourceGroup) && e.name.Some?
    modifies backend
    ensures backend.trace == old(backend.trace) + [CreateOrUpdateAsg(e.resourceGroup.value.name.value, e.name.value, Payload(region, e))]
    ensures err == Outcome(|old(backend.trace)|, backend.failing)
  {
    var asg := AsgPayload(e.name, region, e.tags);
    err := backend.Call(CreateOrUpdateAsg(e.resourceGroup.value.name.value, e.name.value, asg));
  }

  /** Before the delta run, the cluster tags are merged into the group's tags; nothing else changes. */
  function TagsForRun(asg: ApplicationSecurityGroup, addClusterTags: Tags -> Tags): (r: ApplicationSecurityGroup)
    ensures r.tags == addClusterTags(asg.tags)
    ensures r.(tags := asg.tags) == asg
  {
    asg.(tags := addClusterTags(asg.tags))
  }
}
