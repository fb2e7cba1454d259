/**
 * The firewall model builder (firewall.go): the security groups of each
 * instance-group role, with per-group overrides, and the rules of the master
 * network security groups.
 */
module AzureModelFirewall {
  import opened Wrappers
  import opened AzureTaskCommon
  import opened AzureTasksAsg
  import opened AzureTasksNsg
  import opened AzureModelContext

  const PriorityMasterToMaster: Int32 := 100
  const PriorityMasterToNode: Int32 := 200
  const PriorityNodeToNode: Int32 := 300
  const PriorityMasterSshAccess: Int32 := 400
  const PriorityMasterApiServerPublicAccess: Int32 := 500

  datatype NetworkSecurityGroupInfo = NetworkSecurityGroupInfo(name: string, suffix: string, task: NetworkSecurityGroup)
  datatype ApplicationSecurityGroupInfo = ApplicationSecurityGroupInfo(name: string, suffix: string, task: ApplicationSecurityGroup)

  // ---------------------------------------------------------------------
  // Security rules

  /** The tasks of a list of application-security-group infos, in order. */
  function AsgTasks(groups: seq<ApplicationSecurityGroupInfo>): (r: seq<ApplicationSecurityGroup>)
    ensures |r| == |groups| && forall i :: 0 <= i < |groups| ==> r[i] == groups[i].task
  {
    seq(|groups|, i requires 0 <= i < |groups| => groups[i].task)
  }

  /** An allow-all ingress rule between two lists of application security groups. */
  function GroupRule(name: string, sources: seq<ApplicationSecurityGroup>, destinations: seq<ApplicationSecurityGroup>, priority: Int32): SecurityGroupRule
  {
    SecurityGroupRule(Some(name), None, None, None, None, Some("*"), Some(priority), Some("Allow"), Some("*"), Some("*"),
                      Some(sources), Some(destinations), Some(false))
  }

  /** SSH from the cluster's SSH-access CIDRs to the virtual network, TCP port 22. */
  function SshAccessMaster(sshAccess: seq<string>, priority: Int32): SecurityGroupRule
  {
    SecurityGroupRule(Some("ssh-to-master"), Some(sshAccess), None, None, Some("VirtualNetwork"), Some("TCP"), Some(priority),
                      Some("Allow"), Some("*"), Some("22"), None, None, Some(false))
  }

  /** HTTPS from the Internet to the virtual network, TCP port 443. */
  function PublicApiServerAccess(priority: Int32): SecurityGroupRule
  {
    SecurityGroupRule(Some("public-api-server-access"), None, None, Some("Internet"), Some("VirtualNetwork"), Some("TCP"), Some(priority),
                      Some("Allow"), Some("*"), Some("443"), None, None, Some(false))
  }

  predicate PublicApi(cluster: ClusterSpec)
  {
    cluster.apiLoadBalancerType == LoadBalancerTypePublic
  }

  /** The rules of a master network security group, in order. */
  function SecurityRules(cluster: ClusterSpec, masters: seq<ApplicationSecurityGroupInfo>, nodes: seq<ApplicationSecurityGroupInfo>): seq<SecurityGroupRule>
  {
    var m, n := AsgTasks(masters), AsgTasks(nodes);
    [GroupRule("master-to-master", m, m, PriorityMasterToMaster), SshAccessMaster(cluster.sshAccess, PriorityMasterSshAccess)]
    + (if PublicApi(cluster) then [PublicApiServerAccess(PriorityMasterApiServerPublicAccess)] else [])
    + [GroupRule("master-to-node", m, n, PriorityMasterToNode), GroupRule("node-to-node", n, n, PriorityNodeToNode)]
  }

  /** `getSecurityRules`: copies the groups' tasks into each rule's lists and appends the rules. */
  method GetSecurityRules(cluster: ClusterSpec, masters: seq<ApplicationSecurityGroupInfo>, nodes: seq<ApplicationSecurityGroupInfo>)
    returns (rules: seq<SecurityGroupRule>)
    ensures rules == SecurityRules(cluster, masters, nodes)
  {
    rules := [];
    var masterSources: seq<ApplicationSecurityGroup> := [];
    var masterDestinations: seq<ApplicationSecurityGroup> := [];
    for i := 0 to |masters|
      invariant masterSources == AsgTasks(masters[..i]) && masterDestinations == AsgTasks(masters[..i])
    {
      masterSources := masterSources + [masters[i].task];
      masterDestinations := masterDestinations + [masters[i].task];
    }
    assert masters[..|masters|] == masters;
    rules := rules + [GroupRule("master-to-master", masterSources, masterDestinations, PriorityMasterToMaster)];
    rules := rules + [SshAccessMaster(cluster.sshAccess, PriorityMasterSshAccess)];
    if cluster.apiLoadBalancerType == LoadBalancerTypePublic {
      rules := rules + [PublicApiServerAccess(PriorityMasterApiServerPublicAccess)];
    }
    var sources: seq<ApplicationSecurityGroup> := [];
    var destinations: seq<ApplicationSecurityGroup> := [];
    for i := 0 to |masters|
      invariant sources == AsgTasks(masters[..i])
    {
      sources := sources + [masters[i].task];
    }
    for i := 0 to |nodes|
      invariant destinations == AsgTasks(nodes[..i])
    {
      destinations := destinations + [nodes[i].task];
    }
    assert nodes[..|nodes|] == nodes;
    rules := rules + [GroupRule("master-to-node", sources, destinations, PriorityMasterToNode)];
    var nodeSources: seq<ApplicationSecurityGroup> := [];
    var nodeDestinations: seq<ApplicationSecurityGroup> := [];
    for i := 0 to |nodes|
      invariant nodeSources == AsgTasks(nodes[..i]) && nodeDestinations == AsgTasks(nodes[..i])
    {
      nodeSources := nodeSources + [nodes[i].task];
      nodeDestinations := nodeDestinations + [nodes[i].task];
    }
    rules := rules + [GroupRule("node-to-node", nodeSources, nodeDestinations, PriorityNodeToNode)];
  }

  /** The position of the master-to-node rule, after the API rule when there is one. */
  function MasterToNodeIndex(cluster: ClusterSpec): nat
  {
    if PublicApi(cluster) then 3 else 2
  }

  /**
   * The rules are master-to-master, ssh-to-master, the public API rule iff
   * the API load balancer is public, master-to-node and node-to-node, with
   * priorities 100, 400, 500, 200 and 300: five rules or four.
   */
  lemma SecurityRulesOrder(cluster: ClusterSpec, masters: seq<ApplicationSecurityGroupInfo>, nodes: seq<ApplicationSecurityGroupInfo>)
    ensures var rules, k := SecurityRules(cluster, masters, nodes), MasterToNodeIndex(cluster);
      |rules| == (if PublicApi(cluster) then 5 else 4) && k + 1 == |rules| - 1 &&
      rules[0].name == Some("master-to-master") && rules[0].priority == Some(100) &&
      rules[1].name == Some("ssh-to-master") && rules[1].priority == Some(400) &&
      (PublicApi(cluster) ==> rules[2].name == Some("public-api-server-access") && rules[2].priority == Some(500)) &&
      rules[k].name == Some("master-to-node") && rules[k].priority == Some(200) &&
      rules[k + 1].name == Some("node-to-node") && rules[k + 1].priority == Some(300)
  {
  }

  /** The API rule is present iff the API load balancer is public. */
  lemma PublicApiRuleIffPublic(cluster: ClusterSpec, masters: seq<ApplicationSecurityGroupInfo>, nodes: seq<ApplicationSecurityGroupInfo>)
    ensures (exists i :: 0 <= i < |SecurityRules(cluster, masters, nodes)| &&
              SecurityRules(cluster, masters, nodes)[i] == PublicApiServerAccess(PriorityMasterApiServerPublicAccess))
        <==> PublicApi(cluster)
  {
    var rules := SecurityRules(cluster, masters, nodes);
    if PublicApi(cluster) {
      assert rules[2] == PublicApiServerAccess(PriorityMasterApiServerPublicAccess);
    } else {
      forall i | 0 <= i < |rules| ensures rules[i] != PublicApiServerAccess(PriorityMasterApiServerPublicAccess) {
        assert rules[i].name != Some("public-api-server-access");
      }
    }
  }

  /** No two rules share a priority. */
  lemma RulePrioritiesDistinct(cluster: ClusterSpec, masters: seq<ApplicationSecurityGroupInfo>, nodes: seq<ApplicationSecurityGroupInfo>)
    ensures var rules := SecurityRules(cluster, masters, nodes);
      forall i, j :: 0 <= i < j < |rules| ==> rules[i].priority.Some? && rules[i].priority != rules[j].priority
  {
    SecurityRulesOrder(cluster, masters, nodes);
  }

  /** Every rule allows ingress traffic. */
  lemma RulesAllowIngress(cluster: ClusterSpec, masters: seq<ApplicationSecurityGroupInfo>, nodes: seq<ApplicationSecurityGroupInfo>)
    ensures forall r :: r in SecurityRules(cluster, masters, nodes) ==> r.accessType == Some("Allow") && r.egress == Some(false)
  {
  }

  /**
   * Master-to-master links the masters' groups to themselves, master-to-node
   * the masters' groups to the nodes', node-to-node the nodes' groups to
   * themselves; the other rules name no group. SSH comes from the SSH-access
   * CIDRs to port 22, the API from the Internet to port 443.
   */
  lemma RuleEndpoints(cluster: ClusterSpec, masters: seq<ApplicationSecurityGroupInfo>, nodes: seq<ApplicationSecurityGroupInfo>)
    ensures var rules, k, m, n := SecurityRules(cluster, masters, nodes), MasterToNodeIndex(cluster), AsgTasks(masters), AsgTasks(nodes);
      rules[0].sourceApplicationSecurityGroups == Some(m) && rules[0].destinationApplicationSecurityGroups == Some(m) &&
      rules[k].sourceApplicationSecurityGroups == Some(m) && rules[k].destinationApplicationSecurityGroups == Some(n) &&
      rules[k + 1].sourceApplicationSecurityGroups == Some(n) && rules[k + 1].destinationApplicationSecurityGroups == Some(n) &&
      rules[1].sourceCIDRs == Some(cluster.sshAccess) && rules[1].destinationCIDR == Some("VirtualNetwork") &&
      rules[1].protocol == Some("TCP") && rules[1].toPort == Some("22") && rules[1].sourceApplicationSecurityGroups.None? &&
      (PublicApi(cluster) ==> rules[2].sourceCIDR == Some("Internet") && rules[2].protocol == Some("TCP") &&
                              rules[2].toPort == Some("443") && rules[2].sourceApplicationSecurityGroups.None?)
  {
  }

  // ---------------------------------------------------------------------
  // Security groups per role

  const UnsupportedRole := "not a supported security group type"

  predicate SupportedRole(role: Role)
  {
    role == RoleMaster || role == RoleNode || role == RoleBastion
  }

  /** How a base group's description names its role. */
  function RoleNoun(role: Role): string
  {
    if role == RoleMaster then "masters" else if role == RoleNode then "nodes" else "bastion"
  }

  /** The role's default network security group; the bastion one has no tags. */
  function BaseNsg(ctx: ModelContext, role: Role): NetworkSecurityGroup
  {
    var name := ctx.securityGroupName(role);
    NetworkSecurityGroup(Some(name), "", None, None, Some("Network Security group for " + RoleNoun(role)), None,
                         if role == RoleBastion then map[] else ctx.cloudTags(name), [])
  }

  /** The role's application security group. */
  function BaseAsg(ctx: ModelContext, role: Role): ApplicationSecurityGroup
  {
    var name := ctx.securityGroupName(role);
    ApplicationSecurityGroup(Some(name), "", None, None, Some("Application Security group for " + RoleNoun(role)), None, ctx.cloudTags(name))
  }

  /** The overrides set by the instance groups of `role`, in instance-group order, repeats included. */
  function RoleOverrides(igs: seq<InstanceGroup>, role: Role): seq<string>
  {
    if |igs| == 0 then []
    else
      var rest, ig := RoleOverrides(igs[..|igs| - 1], role), igs[|igs| - 1];
      if ig.role == role && ig.securityGroupOverride.Some? then rest + [ig.securityGroupOverride.value] else rest
  }

  /** `xs` without repeats: each value at its first occurrence. */
  function Dedup(xs: seq<string>): seq<string>
  {
    if |xs| == 0 then []
    else
      var rest := Dedup(xs[..|xs| - 1]);
      if xs[|xs| - 1] in rest then rest else rest + [xs[|xs| - 1]]
  }

  /** Some instance group of `role` sets no override and so uses the default group. */
  predicate UsesDefault(igs: seq<InstanceGroup>, role: Role)
  {
    DefaultBefore(igs, role, |igs|)
  }

  /** One of the first `k` instance groups is of `role` and sets no override. */
  predicate DefaultBefore(igs: seq<InstanceGroup>, role: Role, k: nat)
  {
    exists i :: 0 <= i < k && i < |igs| && igs[i].role == role && igs[i].securityGroupOverride.None?
  }

  /** Looking at one more instance group adds that group alone to the question. */
  lemma DefaultBeforeStep(igs: seq<InstanceGroup>, role: Role, k: nat)
    requires k < |igs|
    ensures DefaultBefore(igs, role, k + 1) <==> DefaultBefore(igs, role, k) || (igs[k].role == role && igs[k].securityGroupOverride.None?)
  {
    if DefaultBefore(igs, role, k + 1) && !(igs[k].role == role && igs[k].securityGroupOverride.None?) {
      var i :| 0 <= i < k + 1 && i < |igs| && igs[i].role == role && igs[i].securityGroupOverride.None?;
      assert i < k;
    }
  }

  /** The shared group an override names: `<override>-<role>`, with the override as its ID. */
  function OverrideGroup(ctx: ModelContext, role: Role, name: string): NetworkSecurityGroupInfo
  {
    NetworkSecurityGroupInfo(name, "-" + name,
      NetworkSecurityGroup(Some(name + "-" + role), "", None, Some(name), BaseNsg(ctx, role).description, Some(true), map[], []))
  }

  function OverrideGroups(ctx: ModelContext, role: Role, names: seq<string>): (r: seq<NetworkSecurityGroupInfo>)
    ensures |r| == |names| && forall i :: 0 <= i < |names| ==> r[i] == OverrideGroup(ctx, role, names[i])
  {
    seq(|names|, i requires 0 <= i < |names| => OverrideGroup(ctx, role, names[i]))
  }

  /** The default group's info: named after its task, with no suffix. */
  function DefaultGroup(ctx: ModelContext, role: Role): NetworkSecurityGroupInfo
  {
    NetworkSecurityGroupInfo(ctx.securityGroupName(role), "", BaseNsg(ctx, role))
  }

  /** The network security groups of a supported role: one per distinct override, then the default if used. */
  function NsgGroups(ctx: ModelContext, role: Role): seq<NetworkSecurityGroupInfo>
  {
    OverrideGroups(ctx, role, Dedup(RoleOverrides(ctx.instanceGroups, role)))
    + (if UsesDefault(ctx.instanceGroups, role) then [DefaultGroup(ctx, role)] else [])
  }

  /** The application security groups of a supported role: the base group alone. */
  function AsgGroups(ctx: ModelContext, role: Role): seq<ApplicationSecurityGroupInfo>
  {
    [ApplicationSecurityGroupInfo(ctx.securityGroupName(role), "", BaseAsg(ctx, role))]
  }

  /** What `GetSecurityGroups` returns: an error for an unsupported role, else both group lists. */
  function SecurityGroups(ctx: ModelContext, role: Role): Result<(seq<NetworkSecurityGroupInfo>, seq<ApplicationSecurityGroupInfo>), string>
  {
    if !SupportedRole(role) then Failure(UnsupportedRole)
    else Success((NsgGroups(ctx, role), AsgGroups(ctx, role)))
  }

  /** One more instance group extends the overrides by that group's override alone. */
  lemma ScanStep(igs: seq<InstanceGroup>, role: Role, k: nat)
    requires k < |igs|
    ensures var ig := igs[k];
      RoleOverrides(igs[..k + 1], role)
        == if ig.role == role && ig.securityGroupOverride.Some?
           then RoleOverrides(igs[..k], role) + [ig.securityGroupOverride.value]
           else RoleOverrides(igs[..k], role)
  {
    assert igs[..k + 1][..k] == igs[..k];
  }

  /** Deduplicating one more value adds it iff it is new. */
  lemma DedupStep(xs: seq<string>, x: string)
    ensures Dedup(xs + [x]) == if x in Dedup(xs) then Dedup(xs) else Dedup(xs) + [x]
  {
    assert (xs + [x])[..|xs|] == xs;
  }

  lemma OverrideGroupsAppend(ctx: ModelContext, role: Role, names: seq<string>, name: string)
    ensures OverrideGroups(ctx, role, names + [name]) == OverrideGroups(ctx, role, names) + [OverrideGroup(ctx, role, name)]
  {
  }

  /** The distinct overrides after one more instance group: its override is added iff it is of the role and new. */
  function NextNames(names: seq<string>, ig: InstanceGroup, role: Role): seq<string>
  {
    if ig.role == role && ig.securityGroupOverride.Some? && ig.securityGroupOverride.value !in names
    then names + [ig.securityGroupOverride.value]
    else names
  }

  /** Deduplicating the overrides of one more instance group takes one `NextNames` step. */
  lemma NamesStep(igs: seq<InstanceGroup>, role: Role, k: nat, names: seq<string>)
    requires k < |igs| && names == Dedup(RoleOverrides(igs[..k], role))
    ensures Dedup(RoleOverrides(igs[..k + 1], role)) == NextNames(names, igs[k], role)
  {
    ScanStep(igs, role, k);
    if igs[k].role == role && igs[k].securityGroupOverride.Some? {
      DedupStep(RoleOverrides(igs[..k], role), igs[k].securityGroupOverride.value);
    }
  }

  /**
   * One pass of the scan in `GetSecurityGroups`: a group of another role is
   * skipped; one without an override clears `allOverrides`; a new override
   * is recorded in `done` and gets its shared group.
   */
  method ScanGroup(ctx: ModelContext, role: Role, nsgBase: NetworkSecurityGroup, ig: InstanceGroup,
                   nsgGroups: seq<NetworkSecurityGroupInfo>, done: set<string>, allOverrides: bool, ghost names: seq<string>)
    returns (nsgGroups': seq<NetworkSecurityGroupInfo>, done': set<string>, allOverrides': bool)
    requires nsgBase == BaseNsg(ctx, role)
    requires nsgGroups == OverrideGroups(ctx, role, names)
    requires forall x :: x in done <==> x in names
    ensures nsgGroups' == OverrideGroups(ctx, role, NextNames(names, ig, role))
    ensures forall x :: x in done' <==> x in NextNames(names, ig, role)
    ensures allOverrides' == (allOverrides && !(ig.role == role && ig.securityGroupOverride.None?))
  {
    nsgGroups', done', allOverrides' := nsgGroups, done, allOverrides;
    if ig.role == role {
      if ig.securityGroupOverride.None? {
        allOverrides' := false;
      } else {
        var name := ig.securityGroupOverride.value;
        if name !in done {
          done' := done + {name};
          var sgName := name + "-" + role;
          var t := NetworkSecurityGroup(Some(sgName), "", None, ig.securityGroupOverride, nsgBase.description, Some(true), map[], []);
          OverrideGroupsAppend(ctx, role, names, name);
          assert NetworkSecurityGroupInfo(name, "-" + name, t) == OverrideGroup(ctx, role, name);
          nsgGroups' := nsgGroups + [NetworkSecurityGroupInfo(name, "-" + name, t)];
        }
      }
    }
  }

  /**
   * The scan of the instance groups in `GetSecurityGroups`: notes whether
   * some group of the role has no override and builds one shared group per
   * distinct override, in first-occurrence order.
   */
  method ScanOverrides(ctx: ModelContext, role: Role, nsgBase: NetworkSecurityGroup)
    returns (nsgGroups: seq<NetworkSecurityGroupInfo>, allOverrides: bool)
    requires nsgBase == BaseNsg(ctx, role)
    ensures nsgGroups == OverrideGroups(ctx, role, Dedup(RoleOverrides(ctx.instanceGroups, role)))
    ensures allOverrides == !UsesDefault(ctx.instanceGroups, role)
  {
    nsgGroups := [];
    var done: set<string> := {};
    allOverrides := true;
    var igs := ctx.instanceGroups;
    ghost var names: seq<string> := [];
    for k := 0 to |igs|
      invariant names == Dedup(RoleOverrides(igs[..k], role))
      invariant nsgGroups == OverrideGroups(ctx, role, names)
      invariant forall x :: x in done <==> x in names
      invariant allOverrides == !DefaultBefore(igs, role, k)
    {
      NamesStep(igs, role, k, names);
      DefaultBeforeStep(igs, role, k);
      nsgGroups, done, allOverrides := ScanGroup(ctx, role, nsgBase, igs[k], nsgGroups, done, allOverrides, names);
      names := NextNames(names, igs[k], role);
    }
    assert igs[..|igs|] == igs;
  }

  /**
   * `GetSecurityGroups`: an unsupported role is an error; otherwise the
   * groups of the instance-group scan, the role's default network security
   * group when some instance group uses it, and the role's one application
   * security group.
   */
  method GetSecurityGroups(ctx: ModelContext, role: Role)
    returns (r: Result<(seq<NetworkSecurityGroupInfo>, seq<ApplicationSecurityGroupInfo>), string>)
    ensures r == SecurityGroups(ctx, role)
  {
    if !(role == RoleMaster || role == RoleNode || role == RoleBastion) {
      return Failure(UnsupportedRole);
    }
    var nsgBase := BaseNsg(ctx, role);
    var asgBase := BaseAsg(ctx, role);
    var nsgGroups, allOverrides := ScanOverrides(ctx, role, nsgBase);
    var asgGroups: seq<ApplicationSecurityGroupInfo> := [];
    if !allOverrides {
      assert NetworkSecurityGroupInfo(nsgBase.name.value, "", nsgBase) == DefaultGroup(ctx, role);
      nsgGroups := nsgGroups + [NetworkSecurityGroupInfo(nsgBase.name.value, "", nsgBase)];
    }
    assert nsgGroups == NsgGroups(ctx, role);
    asgGroups := asgGroups + [ApplicationSecurityGroupInfo(asgBase.name.value, "", asgBase)];
    assert asgGroups == AsgGroups(ctx, role);
    return Success((nsgGroups, asgGroups));
  }

  /** The position of the first occurrence of `x` in `xs`. */
  function IndexOf(xs: seq<string>, x: string): (i: nat)
    requires x in xs
    ensures i < |xs| && xs[i] == x && forall j :: 0 <= j < i ==> xs[j] != x
  {
    if xs[0] == x then 0 else 1 + IndexOf(xs[1..], x)
  }

  /** Appending a value does not move the first occurrence of one already present. */
  lemma IndexOfPrefix(p: seq<string>, y: string, z: string)
    requires z in p
    ensures IndexOf(p + [y], z) == IndexOf(p, z)
  {
    var i, j := IndexOf(p, z), IndexOf(p + [y], z);
    assert (p + [y])[i] == z;
    assert p[j] == (p + [y])[j];
  }

  /** Deduplication keeps exactly the values of `xs`. */
  lemma {:induction false} DedupElements(xs: seq<string>)
    ensures forall x :: x in Dedup(xs) <==> x in xs
  {
    if |xs| > 0 {
      var p := xs[..|xs| - 1];
      DedupElements(p);
      assert xs == p + [xs[|xs| - 1]];
    }
  }

  /** Deduplication leaves no value twice. */
  lemma {:induction false} DedupDistinct(xs: seq<string>)
    ensures forall i, j :: 0 <= i < j < |Dedup(xs)| ==> Dedup(xs)[i] != Dedup(xs)[j]
  {
    if |xs| > 0 {
      DedupDistinct(xs[..|xs| - 1]);
    }
  }

  /** Deduplication keeps the values in the order of their first occurrences. */
  lemma {:induction false} DedupFirstOccurrenceOrder(xs: seq<string>)
    ensures forall x :: x in Dedup(xs) ==> x in xs
    ensures forall i, j :: 0 <= i < j < |Dedup(xs)| ==> IndexOf(xs, Dedup(xs)[i]) < IndexOf(xs, Dedup(xs)[j])
  {
    DedupElements(xs);
    if |xs| > 0 {
      var p, y := xs[..|xs| - 1], xs[|xs| - 1];
      assert xs == p + [y];
      var d' := Dedup(p);
      DedupFirstOccurrenceOrder(p);
      DedupElements(p);
      forall z | z in d' ensures IndexOf(xs, z) == IndexOf(p, z) {
        IndexOfPrefix(p, y, z);
      }
      if y !in d' {
        var d := Dedup(xs);
        assert d == d' + [y];
        assert IndexOf(xs, y) == |p|;
        forall i, j | 0 <= i < j < |d| ensures IndexOf(xs, d[i]) < IndexOf(xs, d[j]) {
          assert d[i] == d'[i] && d[i] in d';
          if j < |d'| {
            assert d[j] == d'[j] && d[j] in d';
          }
        }
      }
    }
  }

  /** The overrides seen are exactly those of instance groups of the role. */
  lemma {:induction false} RoleOverridesElements(igs: seq<InstanceGroup>, role: Role)
    ensures forall x :: x in RoleOverrides(igs, role) <==>
      exists i :: 0 <= i < |igs| && igs[i].role == role && igs[i].securityGroupOverride == Some(x)
  {
    if |igs| > 0 {
      var p := igs[..|igs| - 1];
      RoleOverridesElements(p, role);
      forall x ensures x in RoleOverrides(igs, role) <==>
        exists i :: 0 <= i < |igs| && igs[i].role == role && igs[i].securityGroupOverride == Some(x)
      {
        if exists i :: 0 <= i < |igs| && igs[i].role == role && igs[i].securityGroupOverride == Some(x) {
          var i :| 0 <= i < |igs| && igs[i].role == role && igs[i].securityGroupOverride == Some(x);
          if i < |p| {
            assert p[i] == igs[i];
          }
        }
        if x in RoleOverrides(p, role) {
          var i :| 0 <= i < |p| && p[i].role == role && p[i].securityGroupOverride == Some(x);
          assert igs[i] == p[i];
        }
      }
    }
  }

  /** The distinct overrides of a role's instance groups. */
  function OverrideNames(ctx: ModelContext, role: Role): seq<string>
  {
    Dedup(RoleOverrides(ctx.instanceGroups, role))
  }

  /**
   * One name per distinct override value set by an instance group of the
   * role, none twice, in the order the values first occur.
   */
  lemma OverrideNamesSpec(ctx: ModelContext, role: Role)
    ensures var names := OverrideNames(ctx, role);
      (forall x :: x in names <==>
        exists i :: 0 <= i < |ctx.instanceGroups| && ctx.instanceGroups[i].role == role &&
                    ctx.instanceGroups[i].securityGroupOverride == Some(x)) &&
      (forall i, j :: 0 <= i < j < |names| ==> names[i] != names[j]) &&
      (forall x :: x in names ==> x in RoleOverrides(ctx.instanceGroups, role)) &&
      (forall i, j :: 0 <= i < j < |names| ==>
        IndexOf(RoleOverrides(ctx.instanceGroups, role), names[i]) < IndexOf(RoleOverrides(ctx.instanceGroups, role), names[j]))
  {
    var xs := RoleOverrides(ctx.instanceGroups, role);
    DedupElements(xs);
    DedupDistinct(xs);
    DedupFirstOccurrenceOrder(xs);
    RoleOverridesElements(ctx.instanceGroups, role);
  }

  /** Only the three supported roles have security groups; any other role is an error. */
  lemma UnsupportedRoleFails(ctx: ModelContext, role: Role)
    ensures SecurityGroups(ctx, role).Failure? <==> !SupportedRole(role)
    ensures SecurityGroups(ctx, role).Failure? ==> SecurityGroups(ctx, role).error == UnsupportedRole
  {
  }

  /**
   * Each override becomes a shared group named `<override>-<role>` whose ID
   * is the override and whose suffix is `-<override>`, described like the
   * role's default group; the default group follows, last, iff some instance
   * group of the role has no override; the role's only application security
   * group is its base group.
   */
  lemma SecurityGroupsLayout(ctx: ModelContext, role: Role)
    requires SupportedRole(role)
    ensures var (nsgs, asgs) := SecurityGroups(ctx, role).value;
      var names := OverrideNames(ctx, role);
      |nsgs| == |names| + (if UsesDefault(ctx.instanceGroups, role) then 1 else 0) &&
      (forall i :: 0 <= i < |names| ==>
        nsgs[i].name == names[i] && nsgs[i].suffix == "-" + names[i] &&
        nsgs[i].task.name == Some(names[i] + "-" + role) && nsgs[i].task.id == Some(names[i]) &&
        nsgs[i].task.shared == Some(true) && nsgs[i].task.description == BaseNsg(ctx, role).description) &&
      (UsesDefault(ctx.instanceGroups, role) ==> nsgs[|nsgs| - 1] == DefaultGroup(ctx, role)) &&
      asgs == [ApplicationSecurityGroupInfo(ctx.securityGroupName(role), "", BaseAsg(ctx, role))]
  {
  }

  /** A role none of whose instance groups exist gets no network security group at all. */
  lemma {:induction false} NoInstanceGroupsNoGroups(ctx: ModelContext, role: Role)
    requires SupportedRole(role)
    requires forall i :: 0 <= i < |ctx.instanceGroups| ==> ctx.instanceGroups[i].role != role
    ensures SecurityGroups(ctx, role).value.0 == []
  {
    NoRoleNoOverrides(ctx.instanceGroups, role);
  }

  lemma {:induction false} NoRoleNoOverrides(igs: seq<InstanceGroup>, role: Role)
    requires forall i :: 0 <= i < |igs| ==> igs[i].role != role
    ensures RoleOverrides(igs, role) == []
  {
    if |igs| > 0 {
      var p := igs[..|igs| - 1];
      assert forall i :: 0 <= i < |p| ==> p[i] == igs[i];
      NoRoleNoOverrides(p, role);
    }
  }

  // ---------------------------------------------------------------------
  // Building the firewall tasks

  /** A group as the builder adds it: with the builder's lifecycle and the resource-group link. */
  function LinkAsg(ctx: ModelContext, lifecycle: Lifecycle, g: ApplicationSecurityGroupInfo): ApplicationSecurityGroupInfo
  {
    g.(task := g.task.(lifecycle := lifecycle, resourceGroup := ctx.LinkToResourceGroup()))
  }

  function LinkAsgs(ctx: ModelContext, lifecycle: Lifecycle, gs: seq<ApplicationSecurityGroupInfo>): (r: seq<ApplicationSecurityGroupInfo>)
    ensures |r| == |gs| && forall i :: 0 <= i < |gs| ==> r[i] == LinkAsg(ctx, lifecycle, gs[i])
  {
    seq(|gs|, i requires 0 <= i < |gs| => LinkAsg(ctx, lifecycle, gs[i]))
  }

  /** A master network security group as the builder adds it: linked, and carrying `rules`. */
  function LinkNsg(ctx: ModelContext, lifecycle: Lifecycle, g: NetworkSecurityGroupInfo, rules: seq<SecurityGroupRule>): NetworkSecurityGroupInfo
  {
    g.(task := g.task.(lifecycle := lifecycle, resourceGroup := ctx.LinkToResourceGroup(), rules := rules))
  }

  function LinkNsgs(ctx: ModelContext, lifecycle: Lifecycle, gs: seq<NetworkSecurityGroupInfo>, rules: seq<SecurityGroupRule>): (r: seq<NetworkSecurityGroupInfo>)
    ensures |r| == |gs| && forall i :: 0 <= i < |gs| ==> r[i] == LinkNsg(ctx, lifecycle, gs[i], rules)
  {
    seq(|gs|, i requires 0 <= i < |gs| => LinkNsg(ctx, lifecycle, gs[i], rules))
  }

  function AsgTaskList(gs: seq<ApplicationSecurityGroupInfo>): (r: seq<Task>)
    ensures |r| == |gs| && forall i :: 0 <= i < |gs| ==> r[i] == AsgTask(gs[i].task)
  {
    seq(|gs|, i requires 0 <= i < |gs| => AsgTask(gs[i].task))
  }

  function NsgTaskList(gs: seq<NetworkSecurityGroupInfo>): (r: seq<Task>)
    ensures |r| == |gs| && forall i :: 0 <= i < |gs| ==> r[i] == NsgTask(gs[i].task)
  {
    seq(|gs|, i requires 0 <= i < |gs| => NsgTask(gs[i].task))
  }

  /** The linked application security groups of the nodes and of the masters. */
  function NodeGroups(ctx: ModelContext, lifecycle: Lifecycle): seq<ApplicationSecurityGroupInfo>
  {
    LinkAsgs(ctx, lifecycle, AsgGroups(ctx, RoleNode))
  }

  function MasterGroups(ctx: ModelContext, lifecycle: Lifecycle): seq<ApplicationSecurityGroupInfo>
  {
    LinkAsgs(ctx, lifecycle, AsgGroups(ctx, RoleMaster))
  }

  /**
   * The tasks the builder adds, in order: the nodes' application security
   * groups, the masters', and the masters' network security groups, each
   * carrying the rules between those groups.
   */
  function FirewallTasks(ctx: ModelContext, lifecycle: Lifecycle): seq<Task>
  {
    var nodes, masters := NodeGroups(ctx, lifecycle), MasterGroups(ctx, lifecycle);
    AsgTaskList(nodes) + AsgTaskList(masters)
    + NsgTaskList(LinkNsgs(ctx, lifecycle, NsgGroups(ctx, RoleMaster), SecurityRules(ctx.cluster, masters, nodes)))
  }

  /** Links each group's task in place and adds it, in order; returns the linked groups. */
  method AddAsgGroups(ctx: ModelContext, lifecycle: Lifecycle, c: ModelBuilderContext, groups: seq<ApplicationSecurityGroupInfo>)
    returns (linked: seq<ApplicationSecurityGroupInfo>)
    modifies c
    ensures linked == LinkAsgs(ctx, lifecycle, groups)
    ensures c.tasks == old(c.tasks) + AsgTaskList(linked)
  {
    linked := groups;
    for i := 0 to |groups|
      invariant |linked| == |groups|
      invariant linked[..i] == LinkAsgs(ctx, lifecycle, groups[..i]) && linked[i..] == groups[i..]
      invariant c.tasks == old(c.tasks) + AsgTaskList(linked[..i])
    {
      var group := linked[i];
      assert group == groups[i] by { assert linked[i..][0] == groups[i..][0]; }
      var task := group.task.(lifecycle := lifecycle, resourceGroup := ctx.LinkToResourceGroup());
      linked := linked[i := group.(task := task)];
      c.AddTask(AsgTask(task));
      assert AsgTaskList(linked[..i + 1]) == AsgTaskList(linked[..i]) + [AsgTask(task)];
    }
    assert linked[..|groups|] == linked && groups[..|groups|] == groups;
  }

  /** `buildNodeRules`: adds the nodes' application security groups and returns them linked. */
  method BuildNodeRules(ctx: ModelContext, lifecycle: Lifecycle, c: ModelBuilderContext)
    returns (nodeGroups: seq<ApplicationSecurityGroupInfo>)
    modifies c
    ensures nodeGroups == NodeGroups(ctx, lifecycle)
    ensures c.tasks == old(c.tasks) + AsgTaskList(nodeGroups)
  {
    var groups := GetSecurityGroups(ctx, RoleNode);
    var (_, asgs) := groups.value;
    nodeGroups := AddAsgGroups(ctx, lifecycle, c, asgs);
  }

  /** Linking and listing one more network security group appends its task. */
  lemma NsgTaskListStep(ctx: ModelContext, lifecycle: Lifecycle, gs: seq<NetworkSecurityGroupInfo>, i: nat, rules: seq<SecurityGroupRule>)
    requires i < |gs|
    ensures NsgTaskList(LinkNsgs(ctx, lifecycle, gs[..i + 1], rules))
         == NsgTaskList(LinkNsgs(ctx, lifecycle, gs[..i], rules)) + [NsgTask(LinkNsg(ctx, lifecycle, gs[i], rules).task)]
  {
    var l, r := NsgTaskList(LinkNsgs(ctx, lifecycle, gs[..i + 1], rules)), NsgTaskList(LinkNsgs(ctx, lifecycle, gs[..i], rules));
    assert |l| == |r| + 1;
    forall j | 0 <= j < |r| ensures l[j] == r[j] {
      assert gs[..i + 1][j] == gs[..i][j];
    }
  }

  /**
   * The loop of `buildMasterRules` over the masters' network security
   * groups: each is linked, given the rules between `masterGroups` and
   * `nodeGroups`, and added.
   */
  method AddNsgGroups(ctx: ModelContext, lifecycle: Lifecycle, c: ModelBuilderContext, nsgs: seq<NetworkSecurityGroupInfo>,
                      masterGroups: seq<ApplicationSecurityGroupInfo>, nodeGroups: seq<ApplicationSecurityGroupInfo>)
    modifies c
    ensures c.tasks == old(c.tasks) + NsgTaskList(LinkNsgs(ctx, lifecycle, nsgs, SecurityRules(ctx.cluster, masterGroups, nodeGroups)))
  {
    ghost var rulesSpec := SecurityRules(ctx.cluster, masterGroups, nodeGroups);
    for i := 0 to |nsgs|
      invariant c.tasks == old(c.tasks) + NsgTaskList(LinkNsgs(ctx, lifecycle, nsgs[..i], rulesSpec))
    {
      var group := nsgs[i];
      var rules := GetSecurityRules(ctx.cluster, masterGroups, nodeGroups);
      var task := group.task.(lifecycle := lifecycle, resourceGroup := ctx.LinkToResourceGroup(), rules := rules);
      c.AddTask(NsgTask(task));
      NsgTaskListStep(ctx, lifecycle, nsgs, i, rulesSpec);
    }
    assert nsgs[..|nsgs|] == nsgs;
  }

  /**
   * `buildMasterRules`: adds the masters' application security groups, then
   * each master network security group, linked and given the rules.
   */
  method BuildMasterRules(ctx: ModelContext, lifecycle: Lifecycle, c: ModelBuilderContext, nodeGroups: seq<ApplicationSecurityGroupInfo>)
    returns (err: Option<string>)
    modifies c
    ensures c.tasks == old(c.tasks) + AsgTaskList(MasterGroups(ctx, lifecycle))
      + NsgTaskList(LinkNsgs(ctx, lifecycle, NsgGroups(ctx, RoleMaster), SecurityRules(ctx.cluster, MasterGroups(ctx, lifecycle), nodeGroups)))
    ensures err.None?
  {
    var groups := GetSecurityGroups(ctx, RoleMaster);
    var (nsgs, asgs) := groups.value;
    var masterGroups := AddAsgGroups(ctx, lifecycle, c, asgs);
    AddNsgGroups(ctx, lifecycle, c, nsgs, masterGroups, nodeGroups);
    return None;
  }

  /** `Build`: the node groups, then the master groups and rules; it never fails. */
  method Build(ctx: ModelContext, lifecycle: Lifecycle, c: ModelBuilderContext) returns (err: Option<string>)
    modifies c
    ensures c.tasks == old(c.tasks) + FirewallTasks(ctx, lifecycle)
    ensures err.None?
  {
    var nodeGroups := BuildNodeRules(ctx, lifecycle, c);
    err := BuildMasterRules(ctx, lifecycle, c, nodeGroups);
  }

  /**
   * The builder adds the nodes' base application security group, then the
   * masters', then every master network security group in order, linked
   * and carrying the rules between the two linked application security
   * groups; no node network security group is added.
   */
  lemma FirewallTasksLayout(ctx: ModelContext, lifecycle: Lifecycle)
    ensures var tasks, nsgs := FirewallTasks(ctx, lifecycle), NsgGroups(ctx, RoleMaster);
      var node, master := LinkAsg(ctx, lifecycle, AsgGroups(ctx, RoleNode)[0]).task, LinkAsg(ctx, lifecycle, AsgGroups(ctx, RoleMaster)[0]).task;
      |tasks| == 2 + |nsgs| &&
      tasks[0] == AsgTask(node) && node.name == Some(ctx.securityGroupName(RoleNode)) &&
      tasks[1] == AsgTask(master) && master.name == Some(ctx.securityGroupName(RoleMaster)) &&
      forall i :: 0 <= i < |nsgs| ==>
        tasks[2 + i].NsgTask? && tasks[2 + i].nsg.name == nsgs[i].task.name &&
        tasks[2 + i].nsg.lifecycle == lifecycle && tasks[2 + i].nsg.resourceGroup == ctx.LinkToResourceGroup() &&
        tasks[2 + i].nsg.rules == SecurityRules(ctx.cluster, [ApplicationSecurityGroupInfo(ctx.securityGroupName(RoleMaster), "", master)],
                                                              [ApplicationSecurityGroupInfo(ctx.securityGroupName(RoleNode), "", node)])
  {
    var tasks, nsgs := FirewallTasks(ctx, lifecycle), NsgGroups(ctx, RoleMaster);
    var nodes, masters := NodeGroups(ctx, lifecycle), MasterGroups(ctx, lifecycle);
    var node, master := LinkAsg(ctx, lifecycle, AsgGroups(ctx, RoleNode)[0]).task, LinkAsg(ctx, lifecycle, AsgGroups(ctx, RoleMaster)[0]).task;
    assert nodes == [ApplicationSecurityGroupInfo(ctx.securityGroupName(RoleNode), "", node)];
    assert masters == [ApplicationSecurityGroupInfo(ctx.securityGroupName(RoleMaster), "", master)];
    var rules := SecurityRules(ctx.cluster, masters, nodes);
    var linked := LinkNsgs(ctx, lifecycle, nsgs, rules);
    forall i | 0 <= i < |nsgs| ensures tasks[2 + i] == NsgTask(linked[i].task) {
    }
  }
}
