/**
 * The backend fleet (src/aws_cdk_apache_doris/constructs/be_fleet.py): `node_count`
 * instances `BeInstance1..N`, each with the same two data volumes and its own rendered
 * bootstrap script, and the list of their private addresses.
 */
module BeFleet {
  import opened Common
  import opened Text
  import opened Options
  import opened Resources
  import opened UserData

  /** The arguments of `DorisBeFleet.__init__` that shape the plan. */
  datatype BeFleetProps = BeFleetProps(
    subnetId: string,
    securityGroupId: string,
    keyPairName: string,
    amiId: string,
    instanceType: string,
    nodeCount: int,
    jdkDownloadUrl: string,
    dorisDownloadUrl: string,
    beLogDir: string,
    sysLogLevel: string,
    volumeType: VolumeTypeOption,
    volumeSize: string)

  /** `f"BeInstance{index + 1}"`. */
  function BeLogicalId(index: nat): string
  {
    "BeInstance" + ShowInt(index + 1)
  }

  /** Distinct nodes get distinct logical ids. */
  lemma BeLogicalIdsDistinct(i: nat, j: nat)
    requires i != j
    ensures BeLogicalId(i) != BeLogicalId(j)
  {
    if BeLogicalId(i) == BeLogicalId(j) {
      var prefix := "BeInstance";
      assert BeLogicalId(i)[|prefix|..] == ShowInt(i + 1);
      assert BeLogicalId(j)[|prefix|..] == ShowInt(j + 1);
      ShowIntInjective(i + 1, j + 1);
    }
  }

  const BeBindingKeys := ["STACK_ID", "LOGICAL_ID", "REGION", "JDK_DOWNLOAD_URL", "DORIS_DOWNLOAD_URL", "BE_LOG_DIR", "SYS_LOG_LEVEL"]

  /** The replacement mapping of `_render_user_data` for one node. */
  function BeBindings(stack: Stack, logicalId: string, p: BeFleetProps): seq<Binding>
  {
    [ Binding("STACK_ID", stack.stackId),
      Binding("LOGICAL_ID", logicalId),
      Binding("REGION", stack.region),
      Binding("JDK_DOWNLOAD_URL", p.jdkDownloadUrl),
      Binding("DORIS_DOWNLOAD_URL", p.dorisDownloadUrl),
      Binding("BE_LOG_DIR", p.beLogDir),
      Binding("SYS_LOG_LEVEL", p.sysLogLevel) ]
  }

  /** Every node is rendered with the same seven keys, in the same order, and two nodes'
      mappings differ only in the LOGICAL_ID value, which is the node's own logical id. */
  lemma BeBindingsPerNode(stack: Stack, p: BeFleetProps, i: nat, j: nat)
    ensures Keys(BeBindings(stack, BeLogicalId(i), p)) == BeBindingKeys
    ensures BeBindings(stack, BeLogicalId(i), p)[1].value == BeLogicalId(i)
    ensures forall k :: 0 <= k < |BeBindingKeys| && k != 1 ==>
              BeBindings(stack, BeLogicalId(i), p)[k] == BeBindings(stack, BeLogicalId(j), p)[k]
  {
    var b := BeBindings(stack, BeLogicalId(i), p);
    var ks := Keys(b);
    assert ks == [b[0].key, b[1].key, b[2].key, b[3].key, b[4].key, b[5].key, b[6].key];
  }

  /** `_block_devices`: the data volume `/dev/xvdh` of the configured size and the 50 GiB
      volume `/dev/xvdt`, both of the configured type and IOPS, both deleted with the instance. */
  function BeBlockDevices(volumeSize: int, volumeType: VolumeTypeOption, iops: Option<int>): (ds: seq<BlockDevice>)
    ensures |ds| == 2
    ensures forall d :: d in ds ==> d.volumeType == volumeType && d.iops == iops && d.deleteOnTermination
    ensures ds[0].deviceName == "/dev/xvdh" && ds[0].volumeSize == volumeSize
    ensures ds[1].deviceName == "/dev/xvdt" && ds[1].volumeSize == 50
  {
    [ BlockDevice("/dev/xvdh", volumeSize, volumeType, iops, true),
      BlockDevice("/dev/xvdt", 50, volumeType, iops, true) ]
  }

  /** The instance the loop creates for node `index`, before any dependency is added. */
  function PlannedBeInstance(p: BeFleetProps, stack: Stack, template: string, tokens: Tokens, index: nat): (r: Instance)
    requires ParseInt(p.volumeSize).Some?
    ensures r.logicalId == BeLogicalId(index) && r.dependencies == {} && r.creationPolicy == None
  {
    var id := BeLogicalId(index);
    Instance(id, tokens.instanceIdOf(id), tokens.privateIpOf(id), p.instanceType, p.amiId, p.keyPairName,
             p.subnetId, p.securityGroupId, Render(template, BeBindings(stack, id, p)),
             BeBlockDevices(ParseInt(p.volumeSize).value, p.volumeType, Iops(p.volumeType)), None, {})
  }

  /** Appending the planned instance for the next node keeps a list of planned instances. */
  lemma AppendPlanned(xs: seq<Instance>, x: Instance, p: BeFleetProps, stack: Stack, template: string, tokens: Tokens)
    requires ParseInt(p.volumeSize).Some?
    requires forall i :: 0 <= i < |xs| ==> xs[i] == PlannedBeInstance(p, stack, template, tokens, i)
    requires x == PlannedBeInstance(p, stack, template, tokens, |xs|)
    ensures forall i :: 0 <= i < |xs| + 1 ==> (xs + [x])[i] == PlannedBeInstance(p, stack, template, tokens, i)
  {
  }

  /** `range(node_count)` has no elements when the count is not positive. */
  function NodeRange(nodeCount: int): nat
  {
    if nodeCount < 0 then 0 else nodeCount
  }

  class DorisBeFleet {
    var instances: seq<Instance>
    var privateIps: seq<string>

    /** Slot `i` of `private_ips` is instance `i`'s address, or the placeholder when it has none. */
    ghost predicate Valid()
      reads this
    {
      && |privateIps| == |instances|
      && forall i :: 0 <= i < |instances| ==> privateIps[i] == IpOrUnassigned(instances[i].privateIp)
    }

    /** The node loop: `private_ips` starts as `node_count` placeholders, and each iteration
        appends instance `index` and overwrites slot `index` with its address. `int(volume_size)`
        must succeed. */
    constructor (p: BeFleetProps, stack: Stack, template: string, tokens: Tokens)
      requires ParseInt(p.volumeSize).Some?
      ensures Valid()
      ensures |instances| == NodeRange(p.nodeCount)
      ensures forall i :: 0 <= i < |instances| ==> instances[i] == PlannedBeInstance(p, stack, template, tokens, i)
    {
      var n := NodeRange(p.nodeCount);
      var volumeSize := ParseInt(p.volumeSize).value;
      var iops := Iops(p.volumeType);
      var blockDevices := BeBlockDevices(volumeSize, p.volumeType, iops);
      instances := [];
      privateIps := seq(n, _ => UnassignedIp);
      new;
      var index := 0;
      while index < n
        invariant 0 <= index <= n
        invariant |instances| == index && |privateIps| == n
        invariant forall i :: 0 <= i < index ==> instances[i] == PlannedBeInstance(p, stack, template, tokens, i)
        invariant forall i :: 0 <= i < index ==> privateIps[i] == IpOrUnassigned(instances[i].privateIp)
        invariant forall i :: index <= i < n ==> privateIps[i] == UnassignedIp
      {
        var logicalId := BeLogicalId(index);
        var userData := RenderUserData(template, BeBindings(stack, logicalId, p));
        var instance := Instance(logicalId, tokens.instanceIdOf(logicalId), tokens.privateIpOf(logicalId),
                                 p.instanceType, p.amiId, p.keyPairName, p.subnetId, p.securityGroupId,
                                 userData, blockDevices, None, {});
        AppendPlanned(instances, instance, p, stack, template, tokens);
        instances := instances + [instance];
        privateIps := privateIps[index := IpOrUnassigned(instance.privateIp)];
        index := index + 1;
      }
    }

    /** `add_launch_dependencies`: every instance gains an edge to every dependency; nothing
        else changes. */
    method AddLaunchDependencies(dependencies: seq<string>)
      requires Valid()
      modifies this
      ensures Valid()
      ensures privateIps == old(privateIps)
      ensures |instances| == |old(instances)|
      ensures forall i :: 0 <= i < |instances| ==>
                instances[i] == old(instances[i]).(dependencies := old(instances[i]).dependencies + Elements(dependencies))
    {
      var k := 0;
      while k < |dependencies|
        invariant 0 <= k <= |dependencies|
        invariant privateIps == old(privateIps) && |instances| == |old(instances)|
        invariant forall i :: 0 <= i < |instances| ==>
                    instances[i] == old(instances[i]).(dependencies := old(instances[i]).dependencies + Elements(dependencies[..k]))
      {
        var dependency := dependencies[k];
        assert Elements(dependencies[..k + 1]) == Elements(dependencies[..k]) + {dependency} by {
          assert dependencies[..k + 1] == dependencies[..k] + [dependency];
        }
        var j := 0;
        while j < |instances|
          invariant 0 <= j <= |instances|
          invariant privateIps == old(privateIps) && |instances| == |old(instances)|
          invariant forall i :: 0 <= i < j ==>
                      instances[i] == old(instances[i]).(dependencies := old(instances[i]).dependencies + Elements(dependencies[..k + 1]))
          invariant forall i :: j <= i < |instances| ==>
                      instances[i] == old(instances[i]).(dependencies := old(instances[i]).dependencies + Elements(dependencies[..k]))
        {
          instances := instances[j := instances[j].(dependencies := instances[j].dependencies + {dependency})];
          j := j + 1;
        }
        k := k + 1;
      }
      assert dependencies[..|dependencies|] == dependencies;
    }
  }
}
