/**
 * The network model builder (network.go): one virtual-network task, one
 * subnet task per subnet of the cluster specification, and a route-table
 * task when the cluster owns its route table.
 */
module AzureModelNetwork {
  import opened Wrappers
  import opened AzureTaskCommon
  import opened AzureModelContext

  /** The cluster's virtual network, shared iff the cluster uses a shared VPC. */
  function NetworkTaskFor(ctx: ModelContext, lifecycle: Lifecycle): VirtualNetwork
  {
    VirtualNetwork(Some(ctx.nameForVirtualNetwork), lifecycle, ctx.LinkToResourceGroup(), Some(ctx.cluster.networkCidr),
                   ctx.cloudTags(ctx.nameForVirtualNetwork), Some(ctx.sharedVpc))
  }

  /** The task of one subnet: shared iff the subnet names a provider ID. */
  function SubnetTaskFor(ctx: ModelContext, lifecycle: Lifecycle, spec: SubnetSpec): Subnet
  {
    Subnet(Some(ctx.nameForSubnet(spec)), lifecycle, ctx.LinkToResourceGroup(), ctx.virtualNetworkLink, Some(spec.cidr),
           Some(|spec.providerId| > 0), Some(ctx.nameForRouteTable), Some(ctx.securityGroupName(RoleMaster)))
  }

  /** One subnet task per subnet specification, in order. */
  function SubnetTasks(ctx: ModelContext, lifecycle: Lifecycle, specs: seq<SubnetSpec>): seq<Task>
  {
    seq(|specs|, i requires 0 <= i < |specs| => SubnetTask(SubnetTaskFor(ctx, lifecycle, specs[i])))
  }

  /** The cluster creates its route table unless the table or the whole VPC is shared. */
  predicate OwnsRouteTable(ctx: ModelContext)
  {
    !ctx.sharedAzureRouteTable && !ctx.sharedVpc
  }

  function RouteTableTaskFor(ctx: ModelContext, lifecycle: Lifecycle): RouteTable
  {
    RouteTable(Some(ctx.nameForRouteTable), lifecycle, ctx.LinkToResourceGroup(), ctx.cloudTags(ctx.nameForRouteTable),
               Some(ctx.sharedAzureRouteTable))
  }

  /** The tasks the builder adds, in order. */
  function NetworkTasks(ctx: ModelContext, lifecycle: Lifecycle): seq<Task>
  {
    [VirtualNetworkTask(NetworkTaskFor(ctx, lifecycle))]
    + SubnetTasks(ctx, lifecycle, ctx.cluster.subnets)
    + (if OwnsRouteTable(ctx) then [RouteTableTask(RouteTableTaskFor(ctx, lifecycle))] else [])
  }

  /** Adds the network tasks to the builder context; it never fails. */
  method Build(ctx: ModelContext, lifecycle: Lifecycle, c: ModelBuilderContext) returns (err: Option<string>)
    modifies c
    ensures c.tasks == old(c.tasks) + NetworkTasks(ctx, lifecycle)
    ensures err.None?
  {
    var networkTask := VirtualNetwork(Some(ctx.nameForVirtualNetwork), lifecycle, ctx.LinkToResourceGroup(),
                                      Some(ctx.cluster.networkCidr), ctx.cloudTags(ctx.nameForVirtualNetwork), Some(ctx.sharedVpc));
    c.AddTask(VirtualNetworkTask(networkTask));
    var specs := ctx.cluster.subnets;
    for i := 0 to |specs|
      invariant c.tasks == old(c.tasks) + [VirtualNetworkTask(networkTask)] + SubnetTasks(ctx, lifecycle, specs[..i])
    {
      var spec := specs[i];
      var subnetTask := Subnet(Some(ctx.nameForSubnet(spec)), lifecycle, ctx.LinkToResourceGroup(), ctx.virtualNetworkLink,
                               Some(spec.cidr), Some(|spec.providerId| > 0), Some(ctx.nameForRouteTable),
                               Some(ctx.securityGroupName(RoleMaster)));
      c.AddTask(SubnetTask(subnetTask));
      assert SubnetTasks(ctx, lifecycle, specs[..i + 1]) == SubnetTasks(ctx, lifecycle, specs[..i]) + [SubnetTask(subnetTask)];
    }
    assert specs[..|specs|] == specs;
    if !ctx.sharedAzureRouteTable && !ctx.sharedVpc {
      var rtTask := RouteTable(Some(ctx.nameForRouteTable), lifecycle, ctx.LinkToResourceGroup(),
                               ctx.cloudTags(ctx.nameForRouteTable), Some(ctx.sharedAzureRouteTable));
      c.AddTask(RouteTableTask(rtTask));
    }
    err := None;
  }

  /** There are `1 + |subnets|` tasks, plus one for an owned route table. */
  lemma NetworkTaskCount(ctx: ModelContext, lifecycle: Lifecycle)
    ensures |NetworkTasks(ctx, lifecycle)| == 1 + |ctx.cluster.subnets| + (if OwnsRouteTable(ctx) then 1 else 0)
  {
  }

  /** The virtual network comes first, with the cluster's network CIDR, and shared iff the VPC is. */
  lemma NetworkFirst(ctx: ModelContext, lifecycle: Lifecycle)
    ensures var t := NetworkTasks(ctx, lifecycle)[0];
      t.VirtualNetworkTask? && t.network.name == Some(ctx.nameForVirtualNetwork) &&
      t.network.cidr == Some(ctx.cluster.networkCidr) && t.network.shared == Some(ctx.sharedVpc)
  {
  }

  /**
   * Then one subnet per specification, in order, each with its CIDR, shared
   * iff it names a provider ID, and attached to the route table and the
   * master security group.
   */
  lemma SubnetsFollowSpecs(ctx: ModelContext, lifecycle: Lifecycle)
    ensures forall i :: 0 <= i < |ctx.cluster.subnets| ==>
      var t, spec := NetworkTasks(ctx, lifecycle)[1 + i], ctx.cluster.subnets[i];
      t.SubnetTask? && t.subnet.name == Some(ctx.nameForSubnet(spec)) && t.subnet.cidr == Some(spec.cidr) &&
      t.subnet.shared.Some? && (t.subnet.shared.value <==> |spec.providerId| > 0) &&
      t.subnet.routeTable == Some(ctx.nameForRouteTable) && t.subnet.networkSecurityGroup == Some(ctx.securityGroupName(RoleMaster))
  {
    forall i | 0 <= i < |ctx.cluster.subnets|
      ensures NetworkTasks(ctx, lifecycle)[1 + i] == SubnetTask(SubnetTaskFor(ctx, lifecycle, ctx.cluster.subnets[i]))
    {
      SubnetAt(ctx, lifecycle, i);
    }
  }

  /** The task at position `1 + i` is that of subnet `i`. */
  lemma SubnetAt(ctx: ModelContext, lifecycle: Lifecycle, i: nat)
    requires i < |ctx.cluster.subnets|
    ensures NetworkTasks(ctx, lifecycle)[1 + i] == SubnetTask(SubnetTaskFor(ctx, lifecycle, ctx.cluster.subnets[i]))
  {
    var head := [VirtualNetworkTask(NetworkTaskFor(ctx, lifecycle))];
    var subnets := SubnetTasks(ctx, lifecycle, ctx.cluster.subnets);
    var tail := if OwnsRouteTable(ctx) then [RouteTableTask(RouteTableTaskFor(ctx, lifecycle))] else [];
    assert NetworkTasks(ctx, lifecycle) == head + subnets + tail;
    assert (head + subnets + tail)[1 + i] == subnets[i];
  }

  /** A route table comes last iff the cluster owns it, and then it is never marked shared. */
  lemma RouteTableLast(ctx: ModelContext, lifecycle: Lifecycle)
    ensures var tasks := NetworkTasks(ctx, lifecycle);
      (tasks[|tasks| - 1].RouteTableTask? <==> OwnsRouteTable(ctx)) &&
      (OwnsRouteTable(ctx) ==> tasks[|tasks| - 1].routeTable.shared == Some(false))
  {
    var tasks := NetworkTasks(ctx, lifecycle);
    var subnets := SubnetTasks(ctx, lifecycle, ctx.cluster.subnets);
    if !OwnsRouteTable(ctx) && |subnets| > 0 {
      assert tasks[|tasks| - 1] == subnets[|subnets| - 1];
    }
  }

  /** Every task the builder adds carries the builder's lifecycle and the resource-group link. */
  lemma NetworkTasksLinked(ctx: ModelContext, lifecycle: Lifecycle)
    ensures forall t :: t in NetworkTasks(ctx, lifecycle) ==>
      match t
      case VirtualNetworkTask(v) => v.lifecycle == lifecycle && v.resourceGroup == ctx.LinkToResourceGroup()
      case SubnetTask(s) => s.lifecycle == lifecycle && s.resourceGroup == ctx.LinkToResourceGroup()
      case RouteTableTask(r) => r.lifecycle == lifecycle && r.resourceGroup == ctx.LinkToResourceGroup()
      case _ => false
  {
    var tasks := NetworkTasks(ctx, lifecycle);
    var subnets := SubnetTasks(ctx, lifecycle, ctx.cluster.subnets);
    assert forall t :: t in subnets ==> t.SubnetTask? && t.subnet.lifecycle == lifecycle && t.subnet.resourceGroup == ctx.LinkToResourceGroup();
  }
}
