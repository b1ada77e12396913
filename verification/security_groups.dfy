/**
 * The cluster's security boundary (src/aws_cdk_apache_doris/constructs/security_groups.py):
 * an optional client-access group, and the cluster group with one outbound rule, SSH from
 * the bastion, and per Doris port a rule from the group itself, one from the client-access
 * group when there is one and one from the VPC CIDR when that is set.
 */
module SecurityGroups {
  import opened Common
  import opened Text
  import opened Resources

  /** The source of an ingress rule or the destination of an egress rule. */
  datatype Peer = GroupPeer(groupId: string) | Ipv4Peer(cidr: string) | AnyIpv4

  datatype Port = Tcp(port: int) | TcpRange(from: int, to: int)

  datatype Rule = Rule(peer: Peer, port: Port, description: string)

  /** A security group descriptor with its rule lists in the order they were added. */
  datatype SecurityGroup = SecurityGroup(
    id: string,
    description: string,
    allowAllOutbound: bool,
    ingress: seq<Rule>,
    egress: seq<Rule>)
  {
    /** `add_ingress_rule`: appends one rule and changes nothing else. */
    function AddIngressRule(peer: Peer, port: Port, description: string): (g: SecurityGroup)
      ensures |g.ingress| == |ingress| + 1 && g.ingress[..|ingress|] == ingress
      ensures g.ingress[|ingress|] == Rule(peer, port, description)
      ensures g.egress == egress && g.id == id && g.description == this.description
      ensures g.allowAllOutbound == allowAllOutbound
    {
      this.(ingress := ingress + [Rule(peer, port, description)])
    }

    /** `add_egress_rule`: appends one rule and changes nothing else. */
    function AddEgressRule(peer: Peer, port: Port, description: string): (g: SecurityGroup)
      ensures |g.egress| == |egress| + 1 && g.egress[..|egress|] == egress
      ensures g.egress[|egress|] == Rule(peer, port, description)
      ensures g.ingress == ingress && g.id == id && g.description == this.description
      ensures g.allowAllOutbound == allowAllOutbound
    {
      this.(egress := egress + [Rule(peer, port, description)])
    }
  }

  const ClusterGroupLogicalId := "DorisSecurityGroup"
  const ClientGroupLogicalId := "DorisClientAccessSecurityGroup"
  const ClusterGroupDescription := "Security group for Doris cluster nodes"
  const ClientGroupDescription := "Attach this security group to workloads that need Doris access"
  const ClientGroupDisabled := "Client access security group is disabled when CIDR ingress is used"

  /** The single egress rule of the cluster group: any IPv4 address, every TCP port. */
  const OutboundTcp := Rule(AnyIpv4, TcpRange(0, 65535), "Allow outbound TCP")

  /** The one bastion rule: SSH on TCP 22 from the bastion's group. */
  function SshFromBastion(bastionGroupId: string): Rule
  {
    Rule(GroupPeer(bastionGroupId), Tcp(22), "Allow SSH from bastion")
  }

  /** How many rules each Doris port contributes. */
  function RulesPerPort(clientGroupId: Option<string>, vpcCidr: Option<string>): nat
  {
    1 + (if clientGroupId.Some? then 1 else 0) + (if Truthy(vpcCidr) then 1 else 0)
  }

  /** The prefix of every description a port's rules carry. */
  function PortRuleName(port: int): string
  {
    "Allow Doris port " + ShowInt(port)
  }

  /** The port's rule from the cluster group itself. */
  function SelfRule(groupId: string, port: int): Rule
  {
    Rule(GroupPeer(groupId), Tcp(port), PortRuleName(port) + " within the cluster")
  }

  /** The port's rule from the client-access group. */
  function ClientRule(clientGroupId: string, port: int): Rule
  {
    Rule(GroupPeer(clientGroupId), Tcp(port), PortRuleName(port) + " from client access security group")
  }

  /** The port's rule from the VPC CIDR. */
  function CidrRule(cidr: string, port: int): Rule
  {
    Rule(Ipv4Peer(cidr), Tcp(port), PortRuleName(port) + " from CIDR " + cidr)
  }

  /** The rules one iteration of the port loop adds, in order. */
  function PortRules(groupId: string, clientGroupId: Option<string>, vpcCidr: Option<string>, port: int): (rs: seq<Rule>)
    ensures |rs| == RulesPerPort(clientGroupId, vpcCidr)
  {
    [SelfRule(groupId, port)]
    + (if clientGroupId.Some? then [ClientRule(clientGroupId.value, port)] else [])
    + (if Truthy(vpcCidr) then [CidrRule(vpcCidr.value, port)] else [])
  }

  /** One port's rules: from the cluster group itself, then from the client group when there is
      one, then from the CIDR when it is truthy. */
  lemma PortRulesOrder(groupId: string, clientGroupId: Option<string>, vpcCidr: Option<string>, port: int)
    ensures var rs := PortRules(groupId, clientGroupId, vpcCidr, port);
            var c := if clientGroupId.Some? then 1 else 0;
            && rs[0] == SelfRule(groupId, port)
            && (clientGroupId.Some? ==> rs[1] == ClientRule(clientGroupId.value, port))
            && (Truthy(vpcCidr) ==> rs[1 + c] == CidrRule(vpcCidr.value, port))
  {
  }

  /** The rules the whole port loop adds. */
  function PortsRules(groupId: string, clientGroupId: Option<string>, vpcCidr: Option<string>, ports: seq<int>): seq<Rule>
    decreases |ports|
  {
    if |ports| == 0 then []
    else PortsRules(groupId, clientGroupId, vpcCidr, ports[..|ports| - 1])
         + PortRules(groupId, clientGroupId, vpcCidr, ports[|ports| - 1])
  }

  /** The cluster group's ingress rules: SSH from the bastion, then the port rules. */
  function ClusterIngress(bastionGroupId: string, groupId: string, clientGroupId: Option<string>,
                          vpcCidr: Option<string>, ports: seq<int>): seq<Rule>
  {
    [SshFromBastion(bastionGroupId)] + PortsRules(groupId, clientGroupId, vpcCidr, ports)
  }

  lemma {:induction false} PortsRulesCount(groupId: string, clientGroupId: Option<string>, vpcCidr: Option<string>, ports: seq<int>)
    ensures |PortsRules(groupId, clientGroupId, vpcCidr, ports)| == |ports| * RulesPerPort(clientGroupId, vpcCidr)
    decreases |ports|
  {
    if |ports| > 0 {
      PortsRulesCount(groupId, clientGroupId, vpcCidr, ports[..|ports| - 1]);
      var w := RulesPerPort(clientGroupId, vpcCidr);
      assert (|ports| - 1) * w + w == |ports| * w;
    }
  }

  /** Total ingress rules = 1 + |ports| * (1 + [client group] + [vpc_cidr]). */
  lemma IngressRuleCount(bastionGroupId: string, groupId: string, clientGroupId: Option<string>,
                         vpcCidr: Option<string>, ports: seq<int>)
    ensures |ClusterIngress(bastionGroupId, groupId, clientGroupId, vpcCidr, ports)|
            == 1 + |ports| * ((1 + (if clientGroupId.Some? then 1 else 0)) + (if Truthy(vpcCidr) then 1 else 0))
  {
    PortsRulesCount(groupId, clientGroupId, vpcCidr, ports);
  }

  /** The rules of the first `m` ports are a prefix of the rules of all ports. */
  lemma {:induction false} PortsRulesPrefix(groupId: string, clientGroupId: Option<string>, vpcCidr: Option<string>,
                                            ports: seq<int>, m: nat)
    requires m <= |ports|
    ensures PortsRules(groupId, clientGroupId, vpcCidr, ports[..m])
            <= PortsRules(groupId, clientGroupId, vpcCidr, ports)
    decreases |ports|
  {
    if m < |ports| {
      var init := ports[..|ports| - 1];
      assert init[..m] == ports[..m];
      PortsRulesPrefix(groupId, clientGroupId, vpcCidr, init, m);
    } else {
      assert ports[..m] == ports;
    }
  }

  /** The rules of the first `k + 1` ports are those of the first `k`, then port `k`'s. */
  lemma PortsRulesSnoc(groupId: string, clientGroupId: Option<string>, vpcCidr: Option<string>,
                       ports: seq<int>, k: nat)
    requires k < |ports|
    ensures PortsRules(groupId, clientGroupId, vpcCidr, ports[..k + 1])
            == PortsRules(groupId, clientGroupId, vpcCidr, ports[..k]) + PortRules(groupId, clientGroupId, vpcCidr, ports[k])
  {
    assert ports[..k + 1][..k] == ports[..k];
  }

  /** A block that follows `a` in a prefix of `rs` sits at `|a|` in `rs`. */
  lemma BlockOfPrefix(a: seq<Rule>, b: seq<Rule>, rs: seq<Rule>, w: nat)
    requires a + b <= rs && w == |b|
    ensures |a| + w <= |rs| && rs[|a|..|a| + w] == b
  {
    assert (a + b)[|a|..|a| + |b|] == b;
  }

  /** Port `k`'s block of rules comes right after the blocks of the ports before it. */
  lemma PortsRulesBlock(groupId: string, clientGroupId: Option<string>, vpcCidr: Option<string>,
                        ports: seq<int>, k: nat)
    requires k < |ports|
    ensures var base := |PortsRules(groupId, clientGroupId, vpcCidr, ports[..k])|;
            var rs := PortsRules(groupId, clientGroupId, vpcCidr, ports);
            base + RulesPerPort(clientGroupId, vpcCidr) <= |rs|
            && rs[base..base + RulesPerPort(clientGroupId, vpcCidr)] == PortRules(groupId, clientGroupId, vpcCidr, ports[k])
  {
    PortsRulesBeforeBlock(groupId, clientGroupId, vpcCidr, ports, k);
    BlockOfPrefix(PortsRules(groupId, clientGroupId, vpcCidr, ports[..k]),
                  PortRules(groupId, clientGroupId, vpcCidr, ports[k]),
                  PortsRules(groupId, clientGroupId, vpcCidr, ports),
                  RulesPerPort(clientGroupId, vpcCidr));
  }

  /** The rules of the ports before port `k`, then port `k`'s, start the rules of all ports. */
  lemma PortsRulesBeforeBlock(groupId: string, clientGroupId: Option<string>, vpcCidr: Option<string>,
                              ports: seq<int>, k: nat)
    requires k < |ports|
    ensures PortsRules(groupId, clientGroupId, vpcCidr, ports[..k]) + PortRules(groupId, clientGroupId, vpcCidr, ports[k])
            <= PortsRules(groupId, clientGroupId, vpcCidr, ports)
  {
    PortsRulesSnoc(groupId, clientGroupId, vpcCidr, ports, k);
    PortsRulesPrefix(groupId, clientGroupId, vpcCidr, ports, k + 1);
  }

  /** A slice after a leading element is the same slice of the rest, one further on. */
  lemma SliceAfterHead(x: Rule, rest: seq<Rule>, i: nat, j: nat)
    requires i <= j <= |rest|
    ensures ([x] + rest)[1 + i..1 + j] == rest[i..j]
  {
  }

  /** Where port `k`'s block of `w` rules starts: after the SSH rule and `k` blocks. */
  function BlockStart(k: nat, w: nat): nat
  {
    1 + k * w
  }

  /** The rules of the ports before port `k` end just before its block. */
  lemma BlockStartAfterPorts(groupId: string, clientGroupId: Option<string>, vpcCidr: Option<string>,
                             ports: seq<int>, k: nat)
    requires k <= |ports|
    ensures BlockStart(k, RulesPerPort(clientGroupId, vpcCidr))
            == 1 + |PortsRules(groupId, clientGroupId, vpcCidr, ports[..k])|
  {
    PortsRulesCount(groupId, clientGroupId, vpcCidr, ports[..k]);
  }

  /** After the SSH rule, port `k`'s block of `w` rules starts at `1 + k * w`. */
  lemma IngressRuleBlock(bastionGroupId: string, groupId: string, clientGroupId: Option<string>,
                         vpcCidr: Option<string>, ports: seq<int>, k: nat)
    requires k < |ports|
    ensures var w := RulesPerPort(clientGroupId, vpcCidr);
            var rs := ClusterIngress(bastionGroupId, groupId, clientGroupId, vpcCidr, ports);
            var i := BlockStart(k, w);
            i + w <= |rs| && rs[i..i + w] == PortRules(groupId, clientGroupId, vpcCidr, ports[k])
  {
    var w := RulesPerPort(clientGroupId, vpcCidr);
    var all := PortsRules(groupId, clientGroupId, vpcCidr, ports);
    var base := |PortsRules(groupId, clientGroupId, vpcCidr, ports[..k])|;
    BlockStartAfterPorts(groupId, clientGroupId, vpcCidr, ports, k);
    PortsRulesBlock(groupId, clientGroupId, vpcCidr, ports, k);
    assert ClusterIngress(bastionGroupId, groupId, clientGroupId, vpcCidr, ports) == [SshFromBastion(bastionGroupId)] + all;
    ShiftedBlock(SshFromBastion(bastionGroupId), all, base, w, BlockStart(k, w),
                 PortRules(groupId, clientGroupId, vpcCidr, ports[k]));
  }

  /** A block of `w` rules at `base` in `all` sits at `i == 1 + base` once one rule is put in front. */
  lemma ShiftedBlock(x: Rule, all: seq<Rule>, base: nat, w: nat, i: nat, block: seq<Rule>)
    requires base + w <= |all| && all[base..base + w] == block && i == 1 + base
    ensures i + w <= |[x] + all| && ([x] + all)[i..i + w] == block
  {
    SliceAfterHead(x, all, base, base + w);
  }

  /** Per port, in list order and after the SSH rule: the self-referencing rule, then the
      client-group rule exactly when the client group exists, then the CIDR rule exactly when
      `vpc_cidr` is truthy. */
  lemma IngressRuleLayout(bastionGroupId: string, groupId: string, clientGroupId: Option<string>,
                          vpcCidr: Option<string>, ports: seq<int>, k: nat)
    requires k < |ports|
    ensures var w := RulesPerPort(clientGroupId, vpcCidr);
            var rs := ClusterIngress(bastionGroupId, groupId, clientGroupId, vpcCidr, ports);
            var c := if clientGroupId.Some? then 1 else 0;
            var i := BlockStart(k, w);
            && rs[0] == SshFromBastion(bastionGroupId)
            && i + w <= |rs|
            && rs[i] == SelfRule(groupId, ports[k])
            && (clientGroupId.Some? ==> rs[i + 1] == ClientRule(clientGroupId.value, ports[k]))
            && (Truthy(vpcCidr) ==> rs[i + 1 + c] == CidrRule(vpcCidr.value, ports[k]))
  {
    var w := RulesPerPort(clientGroupId, vpcCidr);
    var rs := ClusterIngress(bastionGroupId, groupId, clientGroupId, vpcCidr, ports);
    var i := BlockStart(k, w);
    var c := if clientGroupId.Some? then 1 else 0;
    IngressRuleBlock(bastionGroupId, groupId, clientGroupId, vpcCidr, ports, k);
    var block := PortRules(groupId, clientGroupId, vpcCidr, ports[k]);
    PortRulesOrder(groupId, clientGroupId, vpcCidr, ports[k]);
    RuleInBlock(rs, i, block, 0);
    if clientGroupId.Some? {
      RuleInBlock(rs, i, block, 1);
    }
    if Truthy(vpcCidr) {
      RuleInBlock(rs, i, block, 1 + c);
    }
  }

  /** Rule `j` of a block that sits at `i` in `rs` is rule `i + j` of `rs`. */
  lemma RuleInBlock(rs: seq<Rule>, i: nat, block: seq<Rule>, j: nat)
    requires i + |block| <= |rs| && rs[i..i + |block|] == block && j < |block|
    ensures rs[i + j] == block[j]
  {
    assert rs[i..i + |block|][j] == rs[i + j];
  }

  /** One turn of the port loop: the rule from the group itself, the rule from the client
      group when there is one, the rule from the CIDR when it is truthy, each appended in turn. */
  function AddPortRules(g: SecurityGroup, clientGroup: Option<SecurityGroup>, vpcCidr: Option<string>, port: int)
    : (r: SecurityGroup)
    ensures r == g.(ingress := g.ingress + PortRules(g.id, if clientGroup.Some? then Some(clientGroup.value.id) else None,
                                                     vpcCidr, port))
  {
    var name := PortRuleName(port);
    var g1 := g.AddIngressRule(GroupPeer(g.id), Tcp(port), name + " within the cluster");
    var g2 := if clientGroup.Some?
              then g1.AddIngressRule(GroupPeer(clientGroup.value.id), Tcp(port), name + " from client access security group")
              else g1;
    if Truthy(vpcCidr)
    then g2.AddIngressRule(Ipv4Peer(vpcCidr.value), Tcp(port), name + " from CIDR " + vpcCidr.value)
    else g2
  }

  /** One more turn of the port loop appends that port's rules. */
  lemma ClusterIngressStep(bastionGroupId: string, groupId: string, clientGroupId: Option<string>,
                           vpcCidr: Option<string>, ports: seq<int>, i: nat)
    requires i < |ports|
    ensures ClusterIngress(bastionGroupId, groupId, clientGroupId, vpcCidr, ports[..i + 1])
            == ClusterIngress(bastionGroupId, groupId, clientGroupId, vpcCidr, ports[..i])
               + PortRules(groupId, clientGroupId, vpcCidr, ports[i])
  {
    assert ports[..i + 1][..i] == ports[..i];
  }

  /** Every ingress rule comes from the bastion, the cluster group, the client group (only when
      it exists) or the VPC CIDR (only when it is truthy); nothing else is let in. */
  lemma {:induction false} IngressPeers(bastionGroupId: string, groupId: string, clientGroupId: Option<string>,
                                        vpcCidr: Option<string>, ports: seq<int>)
    ensures forall r :: r in ClusterIngress(bastionGroupId, groupId, clientGroupId, vpcCidr, ports) ==>
              || r == SshFromBastion(bastionGroupId)
              || r.peer == GroupPeer(groupId)
              || (clientGroupId.Some? && r.peer == GroupPeer(clientGroupId.value))
              || (Truthy(vpcCidr) && r.peer == Ipv4Peer(vpcCidr.value))
    decreases |ports|
  {
    if |ports| > 0 {
      IngressPeers(bastionGroupId, groupId, clientGroupId, vpcCidr, ports[..|ports| - 1]);
    }
  }

  /** The cluster group as created, without outbound traffic, after its egress rule and its
      bastion rule are added. */
  function ClusterGroupWithFixedRules(id: string, bastionGroupId: string): (g: SecurityGroup)
    ensures g == SecurityGroup(id, ClusterGroupDescription, false, [SshFromBastion(bastionGroupId)], [OutboundTcp])
  {
    var created := SecurityGroup(id, ClusterGroupDescription, false, [], []);
    var withEgress := created.AddEgressRule(AnyIpv4, TcpRange(0, 65535), "Allow outbound TCP");
    withEgress.AddIngressRule(GroupPeer(bastionGroupId), Tcp(22), "Allow SSH from bastion")
  }

  /** `DorisSecurityGroups`: the construct owning the cluster group and the optional client group. */
  class DorisSecurityGroups {
    var clientAccessSecurityGroup: Option<SecurityGroup>
    var securityGroup: SecurityGroup

    /** The client group's id, when there is one. */
    function ClientGroupId(): Option<string>
      reads this
    {
      if clientAccessSecurityGroup.Some? then Some(clientAccessSecurityGroup.value.id) else None
    }

    constructor (vpcCidr: Option<string>, useClientAccessSecurityGroup: bool, bastionGroupId: string,
                 dorisPorts: seq<int>, tokens: Tokens)
      ensures clientAccessSecurityGroup.Some? <==> useClientAccessSecurityGroup
      ensures useClientAccessSecurityGroup ==>
                clientAccessSecurityGroup.value
                == SecurityGroup(tokens.securityGroupIdOf(ClientGroupLogicalId), ClientGroupDescription, true, [], [])
      ensures securityGroup.id == tokens.securityGroupIdOf(ClusterGroupLogicalId)
      ensures securityGroup.description == ClusterGroupDescription
      ensures !securityGroup.allowAllOutbound
      ensures securityGroup.egress == [OutboundTcp]
      ensures securityGroup.ingress == ClusterIngress(bastionGroupId, securityGroup.id, ClientGroupId(), vpcCidr, dorisPorts)
    {
      clientAccessSecurityGroup := None;
      if useClientAccessSecurityGroup {
        clientAccessSecurityGroup :=
          Some(SecurityGroup(tokens.securityGroupIdOf(ClientGroupLogicalId), ClientGroupDescription, true, [], []));
      }
      securityGroup := ClusterGroupWithFixedRules(tokens.securityGroupIdOf(ClusterGroupLogicalId), bastionGroupId);
      new;
      var client := ClientGroupId();
      var i := 0;
      while i < |dorisPorts|
        invariant 0 <= i <= |dorisPorts|
        invariant client == ClientGroupId()
        invariant clientAccessSecurityGroup.Some? <==> useClientAccessSecurityGroup
        invariant useClientAccessSecurityGroup ==>
                    clientAccessSecurityGroup.value
                    == SecurityGroup(tokens.securityGroupIdOf(ClientGroupLogicalId), ClientGroupDescription, true, [], [])
        invariant securityGroup.id == tokens.securityGroupIdOf(ClusterGroupLogicalId)
        invariant securityGroup.description == ClusterGroupDescription
        invariant !securityGroup.allowAllOutbound
        invariant securityGroup.egress == [OutboundTcp]
        invariant securityGroup.ingress == ClusterIngress(bastionGroupId, securityGroup.id, client, vpcCidr, dorisPorts[..i])
      {
        securityGroup := AddPortRules(securityGroup, clientAccessSecurityGroup, vpcCidr, dorisPorts[i]);
        ClusterIngressStep(bastionGroupId, securityGroup.id, client, vpcCidr, dorisPorts, i);
        i := i + 1;
      }
      assert dorisPorts[..|dorisPorts|] == dorisPorts;
    }

    /** `client_access_security_group_id`: the client group's id, or `ValueError` when it is absent. */
    function ClientAccessSecurityGroupId(): (r: Result<string, string>)
      reads this
      ensures r.Success? <==> clientAccessSecurityGroup.Some?
      ensures r.Success? ==> r.value == clientAccessSecurityGroup.value.id
      ensures r.Failure? ==> r.error == ClientGroupDisabled
    {
      match clientAccessSecurityGroup
      case None => Failure(ClientGroupDisabled)
      case Some(g) => Success(g.id)
    }
  }
}
