/**
 * What the Azure model builders share: the slice of the cluster
 * specification they read, the model context's naming helpers (taken as
 * given), the task types they build, and the builder context that collects
 * the tasks.
 */
module AzureModelContext {
  import opened Wrappers
  import opened AzureTaskCommon
  import opened AzureTasksAsg
  import opened AzureTasksNsg
  import opened AzureTasksDnsZone

  /** Instance-group roles; the builders compare a role with these values. */
  type Role = string
  const RoleMaster: Role := "Master"
  const RoleNode: Role := "Node"
  const RoleBastion: Role := "Bastion"

  const LoadBalancerTypePublic := "Public"
  const DnsTypePrivate := "Private"

  /** An instance group's role and its optional security-group override. */
  datatype InstanceGroup = InstanceGroup(role: Role, securityGroupOverride: Option<string>)

  /** A subnet of the cluster specification. */
  datatype SubnetSpec = SubnetSpec(name: string, cidr: string, providerId: string)

  /** The fields of the cluster specification that the builders read. */
  datatype ClusterSpec = ClusterSpec(
    sshAccess: seq<string>,
    apiLoadBalancerType: string,
    networkCidr: string,
    subnets: seq<SubnetSpec>,
    dnsTopologyType: string,
    dnsZone: string)

  /**
   * The model context: the cluster, its instance groups, and the results of
   * the context's naming and sharing helpers, which the model takes as given.
   */
  datatype ModelContext = ModelContext(
    cluster: ClusterSpec,
    instanceGroups: seq<InstanceGroup>,
    securityGroupName: Role -> string,
    cloudTags: string -> Tags,
    nameForSubnet: SubnetSpec -> string,
    nameForVirtualNetwork: string,
    nameForRouteTable: string,
    nameForLoadBalancer: string,
    resourceGroupLink: ResourceGroup,
    virtualNetworkLink: string,
    useLoadBalancerForApi: bool,
    sharedVpc: bool,
    sharedAzureRouteTable: bool)
  {
    /** The resource-group link every task of a builder carries. */
    function LinkToResourceGroup(): Option<ResourceGroup>
    {
      Some(resourceGroupLink)
    }
  }

  datatype VirtualNetwork = VirtualNetwork(
    name: Option<string>,
    lifecycle: Lifecycle,
    resourceGroup: Option<ResourceGroup>,
    cidr: Option<string>,
    tags: Tags,
    shared: Option<bool>)

  datatype Subnet = Subnet(
    name: Option<string>,
    lifecycle: Lifecycle,
    resourceGroup: Option<ResourceGroup>,
    virtualNetwork: string,
    cidr: Option<string>,
    shared: Option<bool>,
    routeTable: Option<string>,
    networkSecurityGroup: Option<string>)

  datatype RouteTable = RouteTable(
    name: Option<string>,
    lifecycle: Lifecycle,
    resourceGroup: Option<ResourceGroup>,
    tags: Tags,
    shared: Option<bool>)

  /** A task added to the builder context. */
  datatype Task =
    | AsgTask(asg: ApplicationSecurityGroup)
    | NsgTask(nsg: NetworkSecurityGroup)
    | DnsZoneTask(zone: DnsZone)
    | VirtualNetworkTask(network: VirtualNetwork)
    | SubnetTask(subnet: Subnet)
    | RouteTableTask(routeTable: RouteTable)

  /** The builder context: the tasks added so far, in order. */
  class ModelBuilderContext {
    var tasks: seq<Task>

    constructor ()
      ensures tasks == []
    {
      tasks := [];
    }

    method AddTask(t: Task)
      modifies this
      ensures tasks == old(tasks) + [t]
    {
      tasks := tasks + [t];
    }
  }
}
