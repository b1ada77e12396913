/**
 * The frontend fleet (src/aws_cdk_apache_doris/constructs/fe_fleet.py): exactly one
 * instance, `FeMasterInstance`, whose bootstrap script receives the backend addresses
 * joined by spaces, with one 50 GiB volume and a creation policy that waits for one
 * signal.
 */
module FeFleet {
  import opened Common
  import opened Text
  import opened Options
  import opened Resources
  import opened UserData

  /** The arguments of `DorisFeFleet.__init__` that shape the plan (there is no node count). */
  datatype FeFleetProps = FeFleetProps(
    subnetId: string,
    securityGroupId: string,
    keyPairName: string,
    amiId: string,
    instanceType: string,
    jdkDownloadUrl: string,
    dorisDownloadUrl: string,
    metaDir: string,
    logDir: string,
    logLevel: string,
    volumeType: VolumeTypeOption)

  const FeLogicalId := "FeMasterInstance"

  /** Wait for one success signal, for at most 60 minutes (ISO 8601 duration `PT60M`). */
  const FeCreationPolicy := CreationPolicy(1, "PT60M")

  /** `" ".join(str(ip) for ip in be_private_ips)`. */
  function BeIpArgs(bePrivateIps: seq<string>): string
  {
    Join(bePrivateIps, " ")
  }

  /** An empty address list gives the empty string; otherwise splitting on single spaces
      gives back the addresses in order, provided no address contains a space. */
  lemma BeIpArgsRoundTrip(bePrivateIps: seq<string>)
    requires forall k :: 0 <= k < |bePrivateIps| ==> ' ' !in bePrivateIps[k]
    ensures bePrivateIps == [] ==> BeIpArgs(bePrivateIps) == ""
    ensures bePrivateIps != [] ==> Split(BeIpArgs(bePrivateIps), " ") == bePrivateIps
  {
    if bePrivateIps != [] {
      SplitJoinChar(bePrivateIps, ' ');
    }
  }

  const FeBindingKeys := ["STACK_ID", "REGION", "JDK_DOWNLOAD_URL", "DORIS_DOWNLOAD_URL", "META_DIR", "LOG_DIR", "LOG_LEVEL", "BE_IP_ARGS"]

  /** The replacement mapping of `_render_user_data`. */
  function FeBindings(stack: Stack, p: FeFleetProps, bePrivateIps: seq<string>): seq<Binding>
  {
    [ Binding("STACK_ID", stack.stackId),
      Binding("REGION", stack.region),
      Binding("JDK_DOWNLOAD_URL", p.jdkDownloadUrl),
      Binding("DORIS_DOWNLOAD_URL", p.dorisDownloadUrl),
      Binding("META_DIR", p.metaDir),
      Binding("LOG_DIR", p.logDir),
      Binding("LOG_LEVEL", p.logLevel),
      Binding("BE_IP_ARGS", BeIpArgs(bePrivateIps)) ]
  }

  /** The frontend mapping has eight keys, no LOGICAL_ID among them, and binds BE_IP_ARGS,
      last, to the joined backend addresses. */
  lemma FeBindingsShape(stack: Stack, p: FeFleetProps, bePrivateIps: seq<string>)
    ensures Keys(FeBindings(stack, p, bePrivateIps)) == FeBindingKeys
    ensures "LOGICAL_ID" !in Keys(FeBindings(stack, p, bePrivateIps))
    ensures FeBindings(stack, p, bePrivateIps)[7] == Binding("BE_IP_ARGS", BeIpArgs(bePrivateIps))
  {
    var ks := Keys(FeBindings(stack, p, bePrivateIps));
    assert |ks| == |FeBindingKeys|;
    forall k | 0 <= k < |ks|
      ensures ks[k] == FeBindingKeys[k]
    {
    }
    forall k | 0 <= k < |ks|
      ensures ks[k] != "LOGICAL_ID"
    {
      assert |ks[k]| != 10 || ks[k][0] != 'L';
    }
  }

  /** The single block device: `/dev/xvdt`, 50 GiB, of the configured type and IOPS. */
  function FeBlockDevices(volumeType: VolumeTypeOption): (ds: seq<BlockDevice>)
    ensures |ds| == 1
    ensures ds[0].deviceName == "/dev/xvdt" && ds[0].volumeSize == 50 && ds[0].deleteOnTermination
    ensures ds[0].volumeType == volumeType && ds[0].iops == Iops(volumeType)
  {
    [BlockDevice("/dev/xvdt", 50, volumeType, Iops(volumeType), true)]
  }

  /** The instance the fleet creates, rendered from the given backend addresses, before any
      dependency is added; it carries the creation policy only when its default child is a
      `CfnInstance`. */
  function PlannedFeInstance(p: FeFleetProps, stack: Stack, template: string, tokens: Tokens,
                             bePrivateIps: seq<string>, defaultChildIsCfnInstance: bool): (r: Instance)
    ensures r.logicalId == FeLogicalId && r.dependencies == {}
    ensures r.instanceType == p.instanceType && r.amiId == p.amiId && r.keyName == p.keyPairName
    ensures r.subnetId == p.subnetId && r.securityGroupId == p.securityGroupId
    ensures r.creationPolicy == (if defaultChildIsCfnInstance then Some(CreationPolicy(1, "PT60M")) else None)
  {
    Instance(FeLogicalId, tokens.instanceIdOf(FeLogicalId), tokens.privateIpOf(FeLogicalId),
             p.instanceType, p.amiId, p.keyPairName, p.subnetId, p.securityGroupId,
             Render(template, FeBindings(stack, p, bePrivateIps)), FeBlockDevices(p.volumeType),
             if defaultChildIsCfnInstance then Some(FeCreationPolicy) else None, {})
  }

  class DorisFeFleet {
    var instance: Instance

    /** Renders the bootstrap script once, from the addresses given here, then creates the
        instance; the creation policy is set only when the instance's default child is a
        `CfnInstance`. */
    constructor (p: FeFleetProps, stack: Stack, template: string, tokens: Tokens,
                 bePrivateIps: seq<string>, defaultChildIsCfnInstance: bool)
      ensures instance == PlannedFeInstance(p, stack, template, tokens, bePrivateIps, defaultChildIsCfnInstance)
    {
      var userData := RenderUserData(template, FeBindings(stack, p, bePrivateIps));
      instance := Instance(FeLogicalId, tokens.instanceIdOf(FeLogicalId), tokens.privateIpOf(FeLogicalId),
                           p.instanceType, p.amiId, p.keyPairName, p.subnetId, p.securityGroupId,
                           userData, FeBlockDevices(p.volumeType), None, {});
      new;
      if defaultChildIsCfnInstance {
        instance := instance.(creationPolicy := Some(FeCreationPolicy));
      }
    }

    /** `add_launch_dependencies`: the instance gains one edge per dependency; nothing else changes. */
    method AddLaunchDependencies(dependencies: seq<string>)
      modifies this
      ensures instance == old(instance).(dependencies := old(instance).dependencies + Elements(dependencies))
    {
      var k := 0;
      while k < |dependencies|
        invariant 0 <= k <= |dependencies|
        invariant instance == old(instance).(dependencies := old(instance).dependencies + Elements(dependencies[..k]))
      {
        assert dependencies[..k + 1] == dependencies[..k] + [dependencies[k]];
        instance := instance.(dependencies := instance.dependencies + {dependencies[k]});
        k := k + 1;
      }
      assert dependencies[..|dependencies|] == dependencies;
    }
  }
}
