/**
 * The DNS model builder (dns.go): when the API is served through a load
 * balancer, one DNS-zone task named after the load balancer.
 */
module AzureModelDns {
  import opened Wrappers
  import opened AzureTaskCommon
  import opened AzureTasksDnsZone
  import opened AzureModelContext

  /** The zone task: private iff the DNS topology is private, shared iff the cluster names a DNS zone. */
  function ZoneTaskFor(ctx: ModelContext, lifecycle: Lifecycle): DnsZone
  {
    DnsZone(Some(ctx.nameForLoadBalancer), lifecycle, ctx.LinkToResourceGroup(), ctx.nameForVirtualNetwork, None, None,
            Some(|ctx.cluster.dnsZone| > 0), map[], Some(ctx.cluster.dnsTopologyType == DnsTypePrivate))
  }

  /** The tasks the builder adds: the zone, only for load-balancer API endpoints. */
  function DnsTasks(ctx: ModelContext, lifecycle: Lifecycle): seq<Task>
  {
    if ctx.useLoadBalancerForApi then [DnsZoneTask(ZoneTaskFor(ctx, lifecycle))] else []
  }

  /** Adds the DNS tasks to the builder context; it never fails. */
  method Build(ctx: ModelContext, lifecycle: Lifecycle, c: ModelBuilderContext) returns (err: Option<string>)
    modifies c
    ensures c.tasks == old(c.tasks) + DnsTasks(ctx, lifecycle)
    ensures err.None?
  {
    if !ctx.useLoadBalancerForApi {
      return None;
    }
    var private := false;
    if ctx.cluster.dnsTopologyType == DnsTypePrivate {
      private := true;
    }
    var dz := DnsZone(Some(ctx.nameForLoadBalancer), lifecycle, ctx.LinkToResourceGroup(), ctx.nameForVirtualNetwork, None, None,
                      Some(|ctx.cluster.dnsZone| > 0), map[], Some(private));
    c.AddTask(DnsZoneTask(dz));
    return None;
  }

  /**
   * No task without a load-balancer API endpoint; otherwise exactly one zone
   * task, named after the load balancer, in the cluster's virtual network,
   * private iff the DNS topology is private, shared iff the cluster names a
   * DNS zone, with no tags.
   */
  lemma DnsTasksSpec(ctx: ModelContext, lifecycle: Lifecycle)
    ensures |DnsTasks(ctx, lifecycle)| == (if ctx.useLoadBalancerForApi then 1 else 0)
    ensures ctx.useLoadBalancerForApi ==>
      var t := DnsTasks(ctx, lifecycle)[0];
      t.DnsZoneTask? && t.zone.name == Some(ctx.nameForLoadBalancer) &&
      t.zone.virtualNetworkName == ctx.nameForVirtualNetwork &&
      t.zone.lifecycle == lifecycle && t.zone.resourceGroup == ctx.LinkToResourceGroup() &&
      t.zone.private.Some? && (t.zone.private.value <==> ctx.cluster.dnsTopologyType == DnsTypePrivate) &&
      t.zone.shared.Some? && (t.zone.shared.value <==> ctx.cluster.dnsZone != "") &&
      t.zone.tags == map[]
  {
  }

  /**
   * The zone task has a name, a resource group and a `Private` flag: once
   * the link names its group, none of the task fields that the render
   * dereferences is nil.
   */
  lemma ZoneTaskRenderable(ctx: ModelContext, lifecycle: Lifecycle)
    requires ctx.resourceGroupLink.name.Some?
    ensures var z := ZoneTaskFor(ctx, lifecycle);
      z.name.Some? && z.private.Some? && HasGroupName(z.resourceGroup)
  {
  }
}
