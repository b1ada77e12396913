/**
 * Plain descriptors for the CDK objects the planner creates. Everything the CDK
 * computes itself (instance ids, private addresses, security-group ids, the stack's
 * id and region) is an opaque string handed in from outside.
 */
module Resources {
  import opened Common
  import opened Options

  /** `Stack.of(scope)`: the identity of the enclosing stack. */
  datatype Stack = Stack(stackId: string, region: string)

  /** The tokens the CDK returns for a construct, looked up by its logical id. */
  datatype Tokens = Tokens(
    instanceIdOf: string -> string,
    privateIpOf: string -> string,
    securityGroupIdOf: string -> string)

  /** An EBS block device mapping. */
  datatype BlockDevice = BlockDevice(
    deviceName: string,
    volumeSize: int,
    volumeType: VolumeTypeOption,
    iops: Option<int>,
    deleteOnTermination: bool)

  /** A CloudFormation creation policy waiting for `signalCount` resource signals. */
  datatype CreationPolicy = CreationPolicy(signalCount: nat, timeout: string)

  /** An EC2 instance: its settings, rendered user data and the logical ids it depends on. */
  datatype Instance = Instance(
    logicalId: string,
    instanceId: string,
    privateIp: string,
    instanceType: string,
    amiId: string,
    keyName: string,
    subnetId: string,
    securityGroupId: string,
    userData: string,
    blockDevices: seq<BlockDevice>,
    creationPolicy: Option<CreationPolicy>,
    dependencies: set<string>)

  /** The logical ids in a list of dependencies, as a set. */
  function Elements(xs: seq<string>): (r: set<string>)
    ensures forall x :: x in r <==> x in xs
  {
    set x | x in xs
  }

  /** The placeholder address used until a real one is known. */
  const UnassignedIp := "0.0.0.0"

  /** `ip or "0.0.0.0"`. */
  function IpOrUnassigned(ip: string): (r: string)
    ensures r != ""
    ensures ip != "" ==> r == ip
    ensures ip == "" ==> r == UnassignedIp
  {
    if ip == "" then UnassignedIp else ip
  }

  /** `1000 if volume_type == "io1" else None`: provisioned IOPS only for io1 volumes. */
  function Iops(volumeType: VolumeTypeOption): (r: Option<int>)
    ensures r.Some? <==> volumeType == Io1
    ensures r.Some? ==> r.value == 1000
  {
    if volumeType.Value() == "io1" then Some(1000) else None
  }
}
