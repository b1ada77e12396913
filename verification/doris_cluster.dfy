/**
 * The top-level construct (src/aws_cdk_apache_doris/doris_cluster.py): prop validation, the
 * region/version asset tables, the wiring of custom resources, security groups and fleets
 * into one explicit dependency graph, and the stack outputs.
 *
 * The bastion host, the IAM role and the Lambda functions are not part of this model: the
 * bastion enters only as its security-group id and public address, and a custom resource
 * names its handler function by logical id.
 */
module Cluster {
  import opened Common
  import opened Text
  import opened Options
  import opened Resources
  import opened UserData
  import opened SecurityGroups
  import opened BeFleet
  import opened FeFleet
  import opened Graph

  /** The TCP ports of the Doris services, in the order their ingress rules are added. */
  const DorisPorts: seq<int> := [9060, 8040, 9050, 8060, 8030, 9020, 9030, 9010, 443]

  /** No port is listed twice, so the CDK never skips one of the port loop's rules as a
      duplicate of an earlier one. */
  lemma DorisPortsDistinct()
    ensures forall i, j :: 0 <= i < j < |DorisPorts| ==> DorisPorts[i] != DorisPorts[j]
  {
  }

  // ---------------------------------------------------------------------------
  // Region and version asset tables
  // ---------------------------------------------------------------------------

  const DorisDownloads: map<string, map<string, string>> := map[
    "us-east-1" := map[
      "213" := "https://selectdb-cloud-online-us-east-1.s3.amazonaws.com/doris/2.1.3/apache-doris-2.1.3-bin-x64.tar.gz",
      "206" := "https://selectdb-cloud-online-us-east-1.s3.amazonaws.com/doris/2.0.6/apache-doris-2.0.6-bin-x64.tar.gz"],
    "us-west-1" := map[
      "213" := "https://selectdb-cloud-online-us-west-1.s3.amazonaws.com/doris/2.1.3/apache-doris-2.1.3-bin-x64.tar.gz",
      "206" := "https://selectdb-cloud-online-us-west-1.s3.amazonaws.com/doris/2.0.6/apache-doris-2.0.6-bin-x64.tar.gz"],
    "us-west-2" := map[
      "213" := "https://selectdb-cloud-online-us-west-2.s3.amazonaws.com/doris/2.1.3/apache-doris-2.1.3-bin-x64.tar.gz",
      "206" := "https://selectdb-cloud-online-us-west-2.s3.amazonaws.com/doris/2.0.6/apache-doris-2.0.6-bin-x64.tar.gz"]]

  const JdkDownloads: map<string, string> := map[
    "us-east-1" := "https://selectdb-cloud-online-us-east-1.s3.amazonaws.com/doris/jdk-linux_x64.tar.gz",
    "us-west-1" := "https://selectdb-cloud-online-us-west-1.s3.amazonaws.com/doris/jdk-linux_x64.tar.gz",
    "us-west-2" := "https://selectdb-cloud-online-us-west-2.s3.amazonaws.com/doris/jdk-linux_x64.tar.gz"]

  const ImageAmis: map<string, string> := map[
    "us-east-1" := "ami-02d7fd1c2af6eead0",
    "us-west-1" := "ami-0830c9faf0efc29ff",
    "us-west-2" := "ami-0c7843ce70e666e51"]

  /** The `ValueError` raised by a failed lookup. */
  datatype LookupError = LookupError(subject: string, key: string)
  {
    function Message(): string
    {
      subject + " not available for " + key
    }
  }

  /** `_require_region_lookup`: the entry for `key`, or an error naming `label` and `key`;
      there is no default. */
  function RequireRegionLookup<V>(mapping: map<string, V>, key: string, subject: string): (r: Result<V, LookupError>)
    ensures r.Success? <==> key in mapping
    ensures r.Success? ==> r.value == mapping[key]
    ensures r.Failure? ==> r.error == LookupError(subject, key)
  {
    if key in mapping then Success(mapping[key]) else Failure(LookupError(subject, key))
  }

  /** The three tables `_resolve_region_assets` consults. */
  datatype AssetTables = AssetTables(
    downloads: map<string, map<string, string>>,
    jdk: map<string, string>,
    amis: map<string, string>)

  const SourceTables := AssetTables(DorisDownloads, JdkDownloads, ImageAmis)

  /** What `_resolve_region_assets` stores on the construct. */
  datatype RegionAssets = RegionAssets(dorisDownloadUrl: string, jdkDownloadUrl: string, amiId: string)

  const DownloadLabel := "Doris download availability"
  const VersionLabel := "Doris version download"
  const JdkLabel := "JDK download availability"
  const AmiLabel := "Doris AMI"

  /** The four lookups of `_resolve_region_assets` over the given tables, in order: region in
      the downloads table, version in that region's entry, region in the JDK table, region in
      the AMI table. The first missing key is the error. */
  function ResolveAssets(t: AssetTables, region: string, version: string): (r: Result<RegionAssets, LookupError>)
    ensures region !in t.downloads ==> r == Failure(LookupError(DownloadLabel, region))
    ensures region in t.downloads && version !in t.downloads[region] ==>
              r == Failure(LookupError(VersionLabel, version))
    ensures region in t.downloads && version in t.downloads[region] && region !in t.jdk ==>
              r == Failure(LookupError(JdkLabel, region))
    ensures region in t.downloads && version in t.downloads[region] && region in t.jdk && region !in t.amis ==>
              r == Failure(LookupError(AmiLabel, region))
    ensures r.Success? <==>
              region in t.downloads && version in t.downloads[region] && region in t.jdk && region in t.amis
    ensures r.Success? ==> r.value == RegionAssets(t.downloads[region][version], t.jdk[region], t.amis[region])
  {
    match RequireRegionLookup(t.downloads, region, DownloadLabel)
    case Failure(e) => Failure(e)
    case Success(versionMap) =>
      match RequireRegionLookup(versionMap, version, VersionLabel)
      case Failure(e) => Failure(e)
      case Success(dorisUrl) =>
        match RequireRegionLookup(t.jdk, region, JdkLabel)
        case Failure(e) => Failure(e)
        case Success(jdkUrl) =>
          match RequireRegionLookup(t.amis, region, AmiLabel)
          case Failure(e) => Failure(e)
          case Success(ami) => Success(RegionAssets(dorisUrl, jdkUrl, ami))
  }

  /** `_resolve_region_assets` with the construct's own tables. */
  function ResolveRegionAssets(region: string, version: DorisVersion): Result<RegionAssets, LookupError>
  {
    ResolveAssets(SourceTables, region, version.Value())
  }

  const SupportedRegions: set<string> := {"us-east-1", "us-west-1", "us-west-2"}

  /** Resolution succeeds exactly in the three supported regions, for every version: each of
      them has an archive for both releases, a JDK and an AMI. Elsewhere it fails on the first
      lookup, the region in the downloads table. */
  lemma RegionAssetsAvailability(region: string, version: DorisVersion)
    ensures ResolveRegionAssets(region, version).Success? <==> region in SupportedRegions
    ensures region !in SupportedRegions ==>
              ResolveRegionAssets(region, version) == Failure(LookupError(DownloadLabel, region))
    ensures region in SupportedRegions ==>
              ResolveRegionAssets(region, version).value
              == RegionAssets(DorisDownloads[region][version.Value()], JdkDownloads[region], ImageAmis[region])
  {
    assert DorisDownloads.Keys == SupportedRegions;
    if region in SupportedRegions {
      assert region in JdkDownloads && region in ImageAmis;
      assert DorisDownloads[region].Keys == {"213", "206"};
    }
  }

  // ---------------------------------------------------------------------------
  // Props and their validation
  // ---------------------------------------------------------------------------

  /** The keyword arguments of `DorisCluster.__init__`; the VPC and subnet are given by id. */
  datatype ClusterProps = ClusterProps(
    vpcId: string,
    publicSubnetId: string,
    keyPairName: string,
    remoteAccessCidr: string,
    dorisVersion: DorisVersion,
    feNodeCount: int,
    feNodeInstanceType: InstanceTypeOption,
    beNodeCount: int,
    beNodeInstanceType: InstanceTypeOption,
    logDir: string,
    logLevel: LogLevelOption,
    metaDir: string,
    beLogDir: string,
    sysLogLevel: LogLevelOption,
    volumeType: VolumeTypeOption,
    volumeSize: string,
    vpcCidr: Option<string>,
    clientAccessMode: ClientAccessMode)

  /** The props with every keyword argument left at its default. */
  function DefaultProps(vpcId: string, publicSubnetId: string, keyPairName: string): (p: ClusterProps)
    ensures p.feNodeCount == 1 && p.beNodeCount == 3 && p.volumeSize == "50"
    ensures p.vpcCidr == None && p.clientAccessMode == SecurityGroupMode
  {
    ClusterProps(vpcId, publicSubnetId, keyPairName, "0.0.0.0/0", V213, 1, T3Large, 3, T3Large,
                 "feDefaultLogPath", Info, "feDefaultMetaPath", "beDefaultLogPath", Info, Gp2, "50",
                 None, SecurityGroupMode)
  }

  /** The `ValueError`s `_validate_props` raises. */
  datatype ValidationError =
    | FeNodeCountNotPositive
    | BeNodeCountNotPositive
    | VolumeSizeNotNumeric
    | CidrModeWithoutVpcCidr
    | SecurityGroupModeWithVpcCidr
  {
    function Message(): string
    {
      match this
      case FeNodeCountNotPositive => "FE node count must be a positive integer"
      case BeNodeCountNotPositive => "BE node count must be a positive integer"
      case VolumeSizeNotNumeric => "Volume size must be a numeric string"
      case CidrModeWithoutVpcCidr => "client_access_mode='cidr' requires vpc_cidr to be provided"
      case SecurityGroupModeWithVpcCidr => "client_access_mode='security-group' cannot be combined with vpc_cidr"
    }
  }

  /** `_validate_props`. Accepted props are exactly those with positive node counts, a volume
      size `int()` accepts, and a CIDR exactly when the mode is `cidr`. */
  function ValidateProps(p: ClusterProps): (r: Outcome<ValidationError>)
    ensures r.Pass? <==>
              && p.feNodeCount > 0 && p.beNodeCount > 0 && ParseInt(p.volumeSize).Some?
              && (p.clientAccessMode == CidrMode <==> Truthy(p.vpcCidr))
  {
    if p.feNodeCount <= 0 then Fail(FeNodeCountNotPositive)
    else if p.beNodeCount <= 0 then Fail(BeNodeCountNotPositive)
    else if ParseInt(p.volumeSize).None? then Fail(VolumeSizeNotNumeric)
    else if p.clientAccessMode.Value() == "cidr" && !Truthy(p.vpcCidr) then Fail(CidrModeWithoutVpcCidr)
    else if p.clientAccessMode.Value() == "security-group" && Truthy(p.vpcCidr) then Fail(SecurityGroupModeWithVpcCidr)
    else Pass
  }

  /** Each error is raised exactly when every earlier check passed and its own check fails. */
  lemma ValidationOrder(p: ClusterProps)
    ensures ValidateProps(p) == Fail(FeNodeCountNotPositive) <==> p.feNodeCount <= 0
    ensures ValidateProps(p) == Fail(BeNodeCountNotPositive) <==> p.feNodeCount > 0 && p.beNodeCount <= 0
    ensures ValidateProps(p) == Fail(VolumeSizeNotNumeric) <==>
              p.feNodeCount > 0 && p.beNodeCount > 0 && ParseInt(p.volumeSize).None?
    ensures ValidateProps(p) == Fail(CidrModeWithoutVpcCidr) <==>
              && p.feNodeCount > 0 && p.beNodeCount > 0 && ParseInt(p.volumeSize).Some?
              && p.clientAccessMode == CidrMode && !Truthy(p.vpcCidr)
    ensures ValidateProps(p) == Fail(SecurityGroupModeWithVpcCidr) <==>
              && p.feNodeCount > 0 && p.beNodeCount > 0 && ParseInt(p.volumeSize).Some?
              && p.clientAccessMode == SecurityGroupMode && Truthy(p.vpcCidr)
  {
  }

  /** `use_client_access_security_group`. */
  predicate UseClientAccessSecurityGroup(p: ClusterProps)
  {
    p.clientAccessMode.Value() == "security-group"
  }

  /** Once validated, the client group is used exactly when no CIDR is given. */
  lemma ClientGroupExcludesCidr(p: ClusterProps)
    requires ValidateProps(p).Pass?
    ensures UseClientAccessSecurityGroup(p) <==> !Truthy(p.vpcCidr)
  {
  }

  /** `int()` is the only check on the volume size: zero and negative sizes pass, text does not. */
  lemma VolumeSizeOnlyParses(vpcId: string, publicSubnetId: string, keyPairName: string)
    ensures var p := DefaultProps(vpcId, publicSubnetId, keyPairName);
            && ValidateProps(p) == Pass
            && ValidateProps(p.(volumeSize := "0")) == Pass
            && ValidateProps(p.(volumeSize := "-5")) == Pass
            && ValidateProps(p.(volumeSize := "abc")) == Fail(VolumeSizeNotNumeric)
            && ValidateProps(p.(volumeSize := "")) == Fail(VolumeSizeNotNumeric)
            && ValidateProps(p.(volumeSize := " 50\n")) == Pass
            && ValidateProps(p.(volumeSize := "\U{1C}50")) == Fail(VolumeSizeNotNumeric)
  {
    VolumeSizeParses();
  }

  /** The default props pass validation. */
  lemma DefaultPropsPass(vpcId: string, publicSubnetId: string, keyPairName: string)
    ensures ValidateProps(DefaultProps(vpcId, publicSubnetId, keyPairName)) == Pass
  {
    NumeralsParse();
  }

  /** How `int()` reads the volume sizes above. */
  lemma VolumeSizeParses()
    ensures ParseInt("50") == Some(50) && ParseInt("0") == Some(0) && ParseInt("-5") == Some(-5)
    ensures ParseInt("abc") == None && ParseInt("") == None
    ensures ParseInt(" 50\n") == Some(50) && ParseInt("\U{1C}50") == None
  {
    NumeralsParse();
    TextDoesNotParse();
    SurroundingSpaceParses();
  }

  /** `int()` strips a surrounding space and line feed, but not the separator U+001C. */
  lemma SurroundingSpaceParses()
    ensures ParseInt(" 50\n") == Some(50) && ParseInt("\U{1C}50") == None
  {
    NumeralsParse();
    assert Strip(" 50\n") == "50" == Strip("50") by {
      assert StripLeading(" 50\n") == StripLeading("50\n") == "50\n";
      assert StripTrailing("50\n") == StripTrailing("50") == "50";
      assert StripLeading("50") == "50";
    }
    assert Strip("\U{1C}50") == "\U{1C}50" by {
      assert StripLeading("\U{1C}50") == "\U{1C}50";
      assert StripTrailing("\U{1C}50") == "\U{1C}50";
    }
    assert !IsDigit('\U{1C}');
  }

  /** The numerals among the sizes above parse to their values. */
  lemma NumeralsParse()
    ensures ParseInt("50") == Some(50) && ParseInt("0") == Some(0) && ParseInt("-5") == Some(-5)
  {
    ShownNumerals();
    ParseShowInt(50);
    ParseShowInt(0);
    ParseShowInt(-5);
  }

  /** Text and the empty string do not parse. */
  lemma TextDoesNotParse()
    ensures ParseInt("abc") == None && ParseInt("") == None
  {
    assert Strip("abc") == "abc" by {
      assert StripLeading("abc") == "abc";
      assert StripTrailing("abc") == "abc";
    }
    assert !IsDigit('a');
  }

  /** A size of `n` ones is accepted by `int()` exactly when it stays within the digit limit. */
  lemma RepeatedOnesParse(n: nat)
    requires n > 0
    ensures ParseInt(seq(n, _ => '1')).Some? <==> n <= MaxStrDigits
  {
    var s: string := seq(n, _ => '1');
    assert StripLeading(s) == s;
    assert StripTrailing(s) == s;
    DigitCountAllDigits(s);
  }

  /** `int()` limits the number of digits: a 4300-digit size passes validation and a 4301-digit
      size fails it as not numeric. */
  lemma VolumeSizeDigitLimit(vpcId: string, publicSubnetId: string, keyPairName: string)
    ensures var p := DefaultProps(vpcId, publicSubnetId, keyPairName);
            && ValidateProps(p.(volumeSize := seq(4300, _ => '1'))) == Pass
            && ValidateProps(p.(volumeSize := seq(4301, _ => '1'))) == Fail(VolumeSizeNotNumeric)
  {
    RepeatedOnesParse(4300);
    RepeatedOnesParse(4301);
  }

  /** `str()` of the sizes above. */
  lemma ShownNumerals()
    ensures ShowInt(50) == "50" && ShowInt(0) == "0" && ShowInt(-5) == "-5"
  {
  }

  // ---------------------------------------------------------------------------
  // Resources the construct wires together
  // ---------------------------------------------------------------------------

  const EnableVpcDnsId := "EnableVpcDns"
  const EnsureS3EndpointId := "EnsureS3Endpoint"
  const CheckPrivateDnsId := "CheckPrivateDns"
  const CloudFormationEndpointId := "CloudFormationEndpoint"

  /** The resources every instance waits for before launching, in the order they are passed. */
  const LaunchDependencies := [EnsureS3EndpointId, CloudFormationEndpointId]

  /** A Lambda-backed custom resource; `handler` names the backing function. */
  datatype CustomResource = CustomResource(
    logicalId: string,
    handler: string,
    properties: map<string, string>,
    dependencies: set<string>)

  /** An attribute of another resource, resolved at deployment. */
  datatype AttributeRef = GetAtt(logicalId: string, attribute: string)

  /** The CloudFormation interface endpoint. */
  datatype InterfaceEndpoint = InterfaceEndpoint(
    logicalId: string,
    serviceName: string,
    privateDnsEnabled: AttributeRef,
    subnetIds: seq<string>,
    securityGroupIds: seq<string>,
    dependencies: set<string>)

  /** What the construct uses of the bastion host. */
  datatype Bastion = Bastion(securityGroupId: string, publicIp: string)

  function CloudFormationServiceName(region: string): string
  {
    "com.amazonaws." + region + ".cloudformation"
  }

  /** The arguments `_create_compute_components` passes to the backend fleet. */
  function BeFleetPropsOf(p: ClusterProps, assets: RegionAssets, securityGroupId: string): BeFleetProps
  {
    BeFleetProps(p.publicSubnetId, securityGroupId, p.keyPairName, assets.amiId, p.beNodeInstanceType.Value(),
                 p.beNodeCount, assets.jdkDownloadUrl, assets.dorisDownloadUrl, p.beLogDir,
                 p.sysLogLevel.Value(), p.volumeType, p.volumeSize)
  }

  /** The arguments `_create_compute_components` passes to the frontend fleet; the FE node count
      is not among them. */
  function FeFleetPropsOf(p: ClusterProps, assets: RegionAssets, securityGroupId: string): FeFleetProps
  {
    FeFleetProps(p.publicSubnetId, securityGroupId, p.keyPairName, assets.amiId, p.feNodeInstanceType.Value(),
                 assets.jdkDownloadUrl, assets.dorisDownloadUrl, p.metaDir, p.logDir, p.logLevel.Value(),
                 p.volumeType)
  }

  // ---------------------------------------------------------------------------
  // The dependency graph
  // ---------------------------------------------------------------------------

  const LaunchGates: set<string> := {EnsureS3EndpointId, CloudFormationEndpointId}

  lemma LaunchDependenciesAreGates()
    ensures Elements(LaunchDependencies) == LaunchGates
  {
    assert EnsureS3EndpointId in LaunchDependencies && CloudFormationEndpointId in LaunchDependencies;
  }

  /** One vertex per instance, carrying the instance's own dependency set. */
  function InstanceVertices(instances: seq<Instance>): (vs: seq<Vertex>)
    ensures |vs| == |instances|
    ensures forall i :: 0 <= i < |instances| ==> vs[i] == Vertex(instances[i].logicalId, instances[i].dependencies)
  {
    seq(|instances|, i requires 0 <= i < |instances| => Vertex(instances[i].logicalId, instances[i].dependencies))
  }

  /** The graph the wiring produces for `beCount` backend nodes: DNS enablement first, then
      the S3 endpoint, the private-DNS check and the CloudFormation endpoint, then every
      instance waiting on the S3 and CloudFormation endpoints. */
  function PlannedGraph(beCount: nat): seq<Vertex>
  {
    [ Vertex(EnableVpcDnsId, {}),
      Vertex(EnsureS3EndpointId, {EnableVpcDnsId}),
      Vertex(CheckPrivateDnsId, {EnableVpcDnsId}),
      Vertex(CloudFormationEndpointId, {EnableVpcDnsId}) ]
    + seq(beCount, i requires 0 <= i < beCount => Vertex(BeLogicalId(i), LaunchGates))
    + [Vertex(FeLogicalId, LaunchGates)]
  }

  /** The explicit dependency graph over the wired resources. */
  function GraphOf(dns: CustomResource, s3: CustomResource, pdns: CustomResource, cfn: InterfaceEndpoint,
                   be: seq<Instance>, fe: Instance): seq<Vertex>
  {
    [ Vertex(dns.logicalId, dns.dependencies),
      Vertex(s3.logicalId, s3.dependencies),
      Vertex(pdns.logicalId, pdns.dependencies),
      Vertex(cfn.logicalId, cfn.dependencies) ]
    + InstanceVertices(be)
    + [Vertex(fe.logicalId, fe.dependencies)]
  }

  /** Resources wired as the construct wires them form the planned graph. */
  lemma WiredGraph(dns: CustomResource, s3: CustomResource, pdns: CustomResource, cfn: InterfaceEndpoint,
                   be: seq<Instance>, fe: Instance)
    requires dns.logicalId == EnableVpcDnsId && dns.dependencies == {}
    requires s3.logicalId == EnsureS3EndpointId && s3.dependencies == {EnableVpcDnsId}
    requires pdns.logicalId == CheckPrivateDnsId && pdns.dependencies == {EnableVpcDnsId}
    requires cfn.logicalId == CloudFormationEndpointId && cfn.dependencies == {EnableVpcDnsId}
    requires forall i :: 0 <= i < |be| ==> be[i].logicalId == BeLogicalId(i) && be[i].dependencies == LaunchGates
    requires fe.logicalId == FeLogicalId && fe.dependencies == LaunchGates
    ensures GraphOf(dns, s3, pdns, cfn, be, fe) == PlannedGraph(|be|)
  {
    assert InstanceVertices(be) == seq(|be|, i requires 0 <= i < |be| => Vertex(BeLogicalId(i), LaunchGates));
  }

  /** A backend instance id is none of the fixed resource ids. */
  lemma BeLogicalIdIsInstance(i: nat)
    ensures BeLogicalId(i)[0] == 'B'
    ensures BeLogicalId(i) !in {EnableVpcDnsId, EnsureS3EndpointId, CheckPrivateDnsId, CloudFormationEndpointId, FeLogicalId}
  {
    assert BeLogicalId(i)[0] == 'B';
  }

  /** Where each vertex of the planned graph sits. */
  lemma PlannedGraphLayout(beCount: nat)
    ensures |PlannedGraph(beCount)| == beCount + 5
    ensures PlannedGraph(beCount)[1] == Vertex(EnsureS3EndpointId, {EnableVpcDnsId})
    ensures PlannedGraph(beCount)[2] == Vertex(CheckPrivateDnsId, {EnableVpcDnsId})
    ensures PlannedGraph(beCount)[3] == Vertex(CloudFormationEndpointId, {EnableVpcDnsId})
    ensures forall i :: 0 <= i < beCount ==> PlannedGraph(beCount)[4 + i] == Vertex(BeLogicalId(i), LaunchGates)
    ensures PlannedGraph(beCount)[4 + beCount] == Vertex(FeLogicalId, LaunchGates)
  {
  }

  /** The dependencies the wiring creates. */
  predicate PlannedEdge(beCount: nat, a: string, b: string)
  {
    || (a in {EnsureS3EndpointId, CheckPrivateDnsId, CloudFormationEndpointId} && b == EnableVpcDnsId)
    || ((a == FeLogicalId || exists i :: 0 <= i < beCount && a == BeLogicalId(i)) && b in LaunchGates)
  }

  /** Every edge of the planned graph is one the wiring creates. */
  lemma PlannedGraphEdgeSound(beCount: nat, a: string, b: string)
    requires Edge(PlannedGraph(beCount), a, b)
    ensures PlannedEdge(beCount, a, b)
  {
    var vs := PlannedGraph(beCount);
    PlannedGraphLayout(beCount);
    var k :| 0 <= k < |vs| && vs[k].id == a && b in vs[k].dependsOn;
    if 4 <= k < 4 + beCount {
      assert vs[4 + (k - 4)] == Vertex(BeLogicalId(k - 4), LaunchGates);
    }
  }

  /** Every dependency the wiring creates is an edge of the planned graph. */
  lemma PlannedGraphEdgeComplete(beCount: nat, a: string, b: string)
    requires PlannedEdge(beCount, a, b)
    ensures Edge(PlannedGraph(beCount), a, b)
  {
    var vs := PlannedGraph(beCount);
    PlannedGraphLayout(beCount);
    if a == EnsureS3EndpointId && b == EnableVpcDnsId {
      assert vs[1].id == a;
    } else if a == CheckPrivateDnsId && b == EnableVpcDnsId {
      assert vs[2].id == a;
    } else if a == CloudFormationEndpointId && b == EnableVpcDnsId {
      assert vs[3].id == a;
    } else if a == FeLogicalId {
      assert vs[4 + beCount].id == a;
    } else {
      var i :| 0 <= i < beCount && a == BeLogicalId(i);
      assert vs[4 + i].id == a;
    }
  }

  /** The edges are exactly: each of the S3 endpoint, the private-DNS check and the
      CloudFormation endpoint on DNS enablement, and every instance on the S3 and
      CloudFormation endpoints. */
  lemma PlannedGraphEdges(beCount: nat, a: string, b: string)
    ensures Edge(PlannedGraph(beCount), a, b) <==>
              || (a in {EnsureS3EndpointId, CheckPrivateDnsId, CloudFormationEndpointId} && b == EnableVpcDnsId)
              || ((a == FeLogicalId || exists i :: 0 <= i < beCount && a == BeLogicalId(i)) && b in LaunchGates)
  {
    if Edge(PlannedGraph(beCount), a, b) {
      PlannedGraphEdgeSound(beCount, a, b);
    }
    if PlannedEdge(beCount, a, b) {
      PlannedGraphEdgeComplete(beCount, a, b);
    }
  }

  /** The layer of a resource: DNS enablement, then the endpoints and the DNS check, then compute. */
  function Layer(id: string): nat
  {
    if id == EnableVpcDnsId then 0
    else if id in {EnsureS3EndpointId, CheckPrivateDnsId, CloudFormationEndpointId} then 1
    else 2
  }

  /** The wiring has no dependency cycle, for any number of backend nodes. */
  lemma PlannedGraphAcyclic(beCount: nat)
    ensures Acyclic(PlannedGraph(beCount))
  {
    var vs := PlannedGraph(beCount);
    forall i, b | 0 <= i < |vs| && b in vs[i].dependsOn
      ensures Layer(b) < Layer(vs[i].id)
    {
      if 4 <= i < 4 + beCount {
        BeLogicalIdIsInstance(i - 4);
      }
    }
    LayeredIsAcyclic(vs, Layer);
  }

  // ---------------------------------------------------------------------------
  // Stack outputs
  // ---------------------------------------------------------------------------

  /** A `CfnOutput`. */
  datatype Output = Output(name: string, value: string)

  const ClientGroupOutput := "DorisClientAccessSecurityGroupId"

  /** `f"BeInstance{idx}"` or `f"BeInstancePrivateIp{idx}"`. */
  function BeOutputName(idx: nat, privateIp: bool): string
  {
    (if privateIp then "BeInstancePrivateIp" else "BeInstance") + ShowInt(idx)
  }

  /** The two outputs for the backend instance numbered `idx` (counting from 1). */
  function BeOutputPair(idx: nat, instance: Instance): seq<Output>
  {
    [ Output(BeOutputName(idx, false), instance.instanceId),
      Output(BeOutputName(idx, true), IpOrUnassigned(instance.privateIp)) ]
  }

  /** The outputs of the backend loop. */
  function BeOutputs(instances: seq<Instance>): seq<Output>
    decreases |instances|
  {
    if |instances| == 0 then []
    else BeOutputs(instances[..|instances| - 1]) + BeOutputPair(|instances|, instances[|instances| - 1])
  }

  /** The outputs `_expose_outputs` emits before the backend loop. */
  function FixedOutputs(bastion: Bastion, clusterGroupId: string, clientGroupId: Option<string>, fe: Instance): seq<Output>
  {
    [ Output("BastionEip", bastion.publicIp),
      Output("BastionSecurityGroupId", bastion.securityGroupId),
      Output("DorisSecurityGroupId", clusterGroupId) ]
    + (if clientGroupId.Some? then [Output(ClientGroupOutput, clientGroupId.value)] else [])
    + [ Output("FeMasterInstanceId", fe.instanceId),
        Output("FeMasterPrivateIp", IpOrUnassigned(fe.privateIp)) ]
  }

  /** The outputs of `_expose_outputs`, in order. */
  function ClusterOutputs(bastion: Bastion, clusterGroupId: string, clientGroupId: Option<string>,
                          fe: Instance, be: seq<Instance>): seq<Output>
  {
    FixedOutputs(bastion, clusterGroupId, clientGroupId, fe) + BeOutputs(be)
  }

  /** Backend instance `k` (from 0) owns outputs `2k` and `2k + 1`, numbered `k + 1`: its id,
      then its private address. */
  lemma {:induction false} BeOutputsLayout(instances: seq<Instance>)
    ensures |BeOutputs(instances)| == 2 * |instances|
    ensures forall k :: 0 <= k < |instances| ==>
              BeOutputs(instances)[2 * k] == Output(BeOutputName(k + 1, false), instances[k].instanceId)
    ensures forall k :: 0 <= k < |instances| ==>
              BeOutputs(instances)[2 * k + 1] == Output(BeOutputName(k + 1, true), IpOrUnassigned(instances[k].privateIp))
    decreases |instances|
  {
    if |instances| > 0 {
      var n := |instances|;
      var init := instances[..n - 1];
      var pair := BeOutputPair(n, instances[n - 1]);
      BeOutputsLayout(init);
      var bo := BeOutputs(instances);
      assert bo == BeOutputs(init) + pair;
      forall k | 0 <= k < n
        ensures bo[2 * k] == Output(BeOutputName(k + 1, false), instances[k].instanceId)
        ensures bo[2 * k + 1] == Output(BeOutputName(k + 1, true), IpOrUnassigned(instances[k].privateIp))
      {
        if k < n - 1 {
          assert instances[k] == init[k];
        } else {
          assert bo[2 * k] == pair[0] && bo[2 * k + 1] == pair[1];
        }
      }
    }
  }

  /** An address output and an id output never share a name: after `BeInstance` one has
      `P`, the other a digit. */
  lemma BeOutputNameKinds(i: nat, j: nat)
    ensures BeOutputName(i, true) != BeOutputName(j, false)
  {
    var digits := ShowInt(j);
    assert BeOutputName(j, false)[10] == digits[0];
    assert IsDigit(digits[0]);
    assert BeOutputName(i, true)[10] == 'P';
  }

  /** Output names of the backend loop never coincide. */
  lemma BeOutputNameInjective(i: nat, j: nat, a: bool, b: bool)
    requires BeOutputName(i, a) == BeOutputName(j, b)
    ensures i == j && a == b
  {
    BeOutputNameKinds(i, j);
    BeOutputNameKinds(j, i);
    if a == b {
      var x := BeOutputName(i, a);
      var prefix := if a then "BeInstancePrivateIp" else "BeInstance";
      assert x[|prefix|..] == ShowInt(i);
      assert x[|prefix|..] == ShowInt(j);
      ShowIntInjective(i, j);
    }
  }

  /** Names of the backend loop's outputs begin with `Be`. */
  predicate BeginsWithBe(name: string)
  {
    |name| >= 2 && name[0] == 'B' && name[1] == 'e'
  }

  /** Output `q` of the backend loop is named after instance `q / 2 + 1`. */
  lemma BeOutputAt(be: seq<Instance>, q: nat)
    requires q < |BeOutputs(be)|
    ensures BeOutputs(be)[q].name == BeOutputName(q / 2 + 1, q % 2 == 1)
    ensures BeginsWithBe(BeOutputs(be)[q].name)
  {
    var k := q / 2;
    Halves(q);
    BeOutputNamesOf(be, k);
    BeOutputNameBegins(k + 1, q % 2 == 1);
  }

  /** The names of the two outputs of backend instance `k` (from 0). */
  lemma BeOutputNamesOf(be: seq<Instance>, k: nat)
    ensures |BeOutputs(be)| == 2 * |be|
    ensures k < |be| ==> BeOutputs(be)[2 * k].name == BeOutputName(k + 1, false)
    ensures k < |be| ==> BeOutputs(be)[2 * k + 1].name == BeOutputName(k + 1, true)
  {
    BeOutputsLayout(be);
  }

  /** A position is twice its half, plus one when it is odd. */
  lemma Halves(q: nat)
    ensures q % 2 == 1 ==> q == 2 * (q / 2) + 1
    ensures q % 2 != 1 ==> q == 2 * (q / 2)
  {
  }

  /** Backend output names begin with `Be`. */
  lemma BeOutputNameBegins(idx: nat, privateIp: bool)
    ensures BeginsWithBe(BeOutputName(idx, privateIp))
  {
  }

  /** The backend outputs have pairwise distinct names, all beginning with `Be`. */
  lemma BeOutputNamesUnique(be: seq<Instance>)
    ensures forall q :: 0 <= q < |BeOutputs(be)| ==> BeginsWithBe(BeOutputs(be)[q].name)
    ensures forall p, q :: 0 <= p < q < |BeOutputs(be)| ==> BeOutputs(be)[p].name != BeOutputs(be)[q].name
  {
    var bo := BeOutputs(be);
    forall q | 0 <= q < |bo|
      ensures BeginsWithBe(bo[q].name)
    {
      BeOutputAt(be, q);
    }
    forall p, q | 0 <= p < q < |bo|
      ensures bo[p].name != bo[q].name
    {
      BeOutputAt(be, p);
      BeOutputAt(be, q);
      if bo[p].name == bo[q].name {
        BeOutputNameInjective(p / 2 + 1, q / 2 + 1, p % 2 == 1, q % 2 == 1);
      }
    }
  }

  /** The outputs before the loop have pairwise distinct names, none beginning with `Be`. */
  lemma FixedOutputNamesUnique(bastion: Bastion, clusterGroupId: string, clientGroupId: Option<string>, fe: Instance)
    ensures var fo := FixedOutputs(bastion, clusterGroupId, clientGroupId, fe);
            && (forall q :: 0 <= q < |fo| ==> !BeginsWithBe(fo[q].name))
            && (forall p, q :: 0 <= p < q < |fo| ==> fo[p].name != fo[q].name)
            && ((exists q :: 0 <= q < |fo| && fo[q].name == ClientGroupOutput) <==> clientGroupId.Some?)
  {
    var fo := FixedOutputs(bastion, clusterGroupId, clientGroupId, fe);
    if clientGroupId.Some? {
      assert fo[3].name == ClientGroupOutput;
    }
  }

  /** Every output name is used once, so no two `CfnOutput`s collide. */
  lemma OutputNamesUnique(bastion: Bastion, clusterGroupId: string, clientGroupId: Option<string>,
                          fe: Instance, be: seq<Instance>)
    ensures var os := ClusterOutputs(bastion, clusterGroupId, clientGroupId, fe, be);
            forall i, j :: 0 <= i < j < |os| ==> os[i].name != os[j].name
  {
    var fo := FixedOutputs(bastion, clusterGroupId, clientGroupId, fe);
    var bo := BeOutputs(be);
    var os := fo + bo;
    FixedOutputNamesUnique(bastion, clusterGroupId, clientGroupId, fe);
    BeOutputNamesUnique(be);
    forall i, j | 0 <= i < j < |os|
      ensures os[i].name != os[j].name
    {
      if i >= |fo| {
        assert os[i] == bo[i - |fo|] && os[j] == bo[j - |fo|];
      } else if j >= |fo| {
        assert os[i] == fo[i] && os[j] == bo[j - |fo|];
      }
    }
  }

  /** An output named after the client group comes from before the loop, so the client group exists. */
  lemma ClientGroupOutputFixed(bastion: Bastion, clusterGroupId: string, clientGroupId: Option<string>,
                               fe: Instance, be: seq<Instance>, k: nat)
    requires var os := ClusterOutputs(bastion, clusterGroupId, clientGroupId, fe, be);
             k < |os| && os[k].name == ClientGroupOutput
    ensures clientGroupId.Some?
  {
    var fo := FixedOutputs(bastion, clusterGroupId, clientGroupId, fe);
    var bo := BeOutputs(be);
    var os := fo + bo;
    FixedOutputNamesUnique(bastion, clusterGroupId, clientGroupId, fe);
    if k < |fo| {
      assert os[k] == fo[k];
    } else {
      assert os[k] == bo[k - |fo|];
      assert !BeginsWithBe(ClientGroupOutput);
      BeOutputAt(be, k - |fo|);
    }
  }

  /** The client-group output is present exactly when there is a client group, and carries its id. */
  lemma ClientGroupOutputIff(bastion: Bastion, clusterGroupId: string, clientGroupId: Option<string>,
                             fe: Instance, be: seq<Instance>)
    ensures var os := ClusterOutputs(bastion, clusterGroupId, clientGroupId, fe, be);
            && ((exists k :: 0 <= k < |os| && os[k].name == ClientGroupOutput) <==> clientGroupId.Some?)
            && (clientGroupId.Some? ==> os[3] == Output(ClientGroupOutput, clientGroupId.value))
  {
    var fo := FixedOutputs(bastion, clusterGroupId, clientGroupId, fe);
    var os := ClusterOutputs(bastion, clusterGroupId, clientGroupId, fe, be);
    if k :| 0 <= k < |os| && os[k].name == ClientGroupOutput {
      ClientGroupOutputFixed(bastion, clusterGroupId, clientGroupId, fe, be, k);
    }
    if clientGroupId.Some? {
      assert os[3] == fo[3];
      assert os[3].name == ClientGroupOutput;
    }
  }

  /** `self.be_private_ips[:n]`: Python slicing from the front, negative `n` counting from the end. */
  function PyPrefix<T>(s: seq<T>, n: int): (r: seq<T>)
    ensures r <= s
    ensures n >= |s| ==> r == s
  {
    if n >= 0 then (if n < |s| then s[..n] else s)
    else if |s| + n > 0 then s[..|s| + n]
    else []
  }

  /** Why construction can fail. */
  datatype ClusterError =
    | InvalidProps(validation: ValidationError)
    | AssetUnavailable(lookup: LookupError)

  const ClientGroupUnavailable :=
    "Client access security group is only available when client_access_mode='security-group'"

  /** `DorisCluster`: the construct and the resources it owns. */
  class DorisCluster {
    var props: ClusterProps
    var stack: Stack
    var useClientAccessSecurityGroup: bool
    var assets: RegionAssets
    var bastion: Bastion
    var enableDns: CustomResource
    var s3GatewayEndpoint: CustomResource
    var privateDnsQuery: CustomResource
    var cfnEndpoint: InterfaceEndpoint
    var securityGroups: DorisSecurityGroups
    var clientAccessSecurityGroup: Option<SecurityGroup>
    var beFleet: DorisBeFleet
    var feFleet: DorisFeFleet
    var outputs: seq<Output>

    /** The explicit dependency graph over every resource the construct wires. */
    function DependencyGraph(): seq<Vertex>
      reads this, beFleet, feFleet
    {
      GraphOf(enableDns, s3GatewayEndpoint, privateDnsQuery, cfnEndpoint, beFleet.instances, feFleet.instance)
    }

    /** The client group's id as the outputs see it. */
    function ClientGroupId(): Option<string>
      reads this
    {
      if clientAccessSecurityGroup.Some? then Some(clientAccessSecurityGroup.value.id) else None
    }

    ghost predicate Valid()
      reads this, securityGroups, beFleet, feFleet
    {
      && useClientAccessSecurityGroup == UseClientAccessSecurityGroup(props)
      && clientAccessSecurityGroup == securityGroups.clientAccessSecurityGroup
      && (clientAccessSecurityGroup.Some? <==> useClientAccessSecurityGroup)
      && beFleet.Valid()
      && |beFleet.instances| == NodeRange(props.beNodeCount)
      && DependencyGraph() == PlannedGraph(|beFleet.instances|)
    }

    /** The resources `__init__` creates, each equal to its plan: the custom resources and the
        endpoint with their handlers, properties and dependencies, the cluster group's rules,
        both fleets' instances waiting on the launch gates, the client group, and the outputs. */
    ghost predicate Built(tokens: Tokens, feTemplate: string, beTemplate: string, defaultChildIsCfnInstance: bool)
      reads this, securityGroups, beFleet, feFleet
    {
      var groupId := securityGroups.securityGroup.id;
      && ParseInt(props.volumeSize).Some?
      && enableDns == CustomResource(EnableVpcDnsId, "EnableDnsFunction", map["VpcId" := props.vpcId], {})
      && s3GatewayEndpoint
         == CustomResource(EnsureS3EndpointId, "CreateS3EndpointFunction",
                           map["SubnetId" := props.publicSubnetId, "VpcId" := props.vpcId, "Region" := stack.region],
                           {EnableVpcDnsId})
      && privateDnsQuery
         == CustomResource(CheckPrivateDnsId, "GetEnablePvdFunction",
                           map["EndpointServiceName" := CloudFormationServiceName(stack.region), "VpcId" := props.vpcId],
                           {EnableVpcDnsId})
      && cfnEndpoint
         == InterfaceEndpoint(CloudFormationEndpointId, CloudFormationServiceName(stack.region),
                              GetAtt(CheckPrivateDnsId, "CanEnablePrivateDns"), [props.publicSubnetId],
                              [groupId, bastion.securityGroupId], {EnableVpcDnsId})
      && groupId == tokens.securityGroupIdOf(ClusterGroupLogicalId)
      && securityGroups.securityGroup.egress == [OutboundTcp]
      && securityGroups.securityGroup.ingress
         == ClusterIngress(bastion.securityGroupId, groupId, ClientGroupId(), props.vpcCidr, DorisPorts)
      && (forall i :: 0 <= i < |beFleet.instances| ==>
            beFleet.instances[i]
            == PlannedBeInstance(BeFleetPropsOf(props, assets, groupId), stack, beTemplate, tokens, i)
                 .(dependencies := LaunchGates))
      && feFleet.instance
         == PlannedFeInstance(FeFleetPropsOf(props, assets, groupId), stack, feTemplate, tokens,
                              beFleet.privateIps, defaultChildIsCfnInstance).(dependencies := LaunchGates)
      && (clientAccessSecurityGroup.Some? ==>
            clientAccessSecurityGroup.value
            == SecurityGroup(tokens.securityGroupIdOf(ClientGroupLogicalId), ClientGroupDescription, true, [], []))
      && outputs == ClusterOutputs(bastion, groupId, ClientGroupId(), feFleet.instance, beFleet.instances)
    }

    /** `__init__` after validation and asset resolution: the attributes it stores and the
        resources its steps create. `int(volume_size)` must succeed. */
    constructor (props: ClusterProps, stack: Stack, assets: RegionAssets, bastion: Bastion, tokens: Tokens,
                 feTemplate: string, beTemplate: string, defaultChildIsCfnInstance: bool)
      requires ParseInt(props.volumeSize).Some?
      ensures Valid()
      ensures this.props == props && this.stack == stack && this.assets == assets && this.bastion == bastion
      ensures Built(tokens, feTemplate, beTemplate, defaultChildIsCfnInstance)
    {
      var useClient := UseClientAccessSecurityGroup(props);
      var dns, s3, pdns, groups, clientGroup, cfn, be, fe, outs :=
        Assemble(props, stack, assets, bastion, tokens, feTemplate, beTemplate, defaultChildIsCfnInstance);
      this.props := props;
      this.stack := stack;
      this.useClientAccessSecurityGroup := useClient;
      this.assets := assets;
      this.bastion := bastion;
      enableDns := dns;
      s3GatewayEndpoint := s3;
      privateDnsQuery := pdns;
      cfnEndpoint := cfn;
      securityGroups := groups;
      clientAccessSecurityGroup := clientGroup;
      beFleet := be;
      feFleet := fe;
      outputs := outs;
    }

    /** The resource-creating steps of `__init__`, in order: custom resources, security
        components, the CloudFormation endpoint, the compute components (launching after the S3
        endpoint and the CloudFormation endpoint) and the outputs. */
    static method Assemble(props: ClusterProps, stack: Stack, assets: RegionAssets, bastion: Bastion, tokens: Tokens,
                           feTemplate: string, beTemplate: string, defaultChildIsCfnInstance: bool)
      returns (dns: CustomResource, s3: CustomResource, pdns: CustomResource, groups: DorisSecurityGroups,
               clientGroup: Option<SecurityGroup>, cfn: InterfaceEndpoint, be: DorisBeFleet, fe: DorisFeFleet,
               outs: seq<Output>)
      requires ParseInt(props.volumeSize).Some?
      ensures fresh(groups) && fresh(be) && fresh(fe)
      ensures clientGroup == groups.clientAccessSecurityGroup
      ensures clientGroup.Some? <==> UseClientAccessSecurityGroup(props)
      ensures clientGroup.Some? ==>
                clientGroup.value
                == SecurityGroup(tokens.securityGroupIdOf(ClientGroupLogicalId), ClientGroupDescription, true, [], [])
      ensures be.Valid() && |be.instances| == NodeRange(props.beNodeCount)
      ensures GraphOf(dns, s3, pdns, cfn, be.instances, fe.instance) == PlannedGraph(|be.instances|)
      ensures dns == CustomResource(EnableVpcDnsId, "EnableDnsFunction", map["VpcId" := props.vpcId], {})
      ensures s3
              == CustomResource(EnsureS3EndpointId, "CreateS3EndpointFunction",
                                map["SubnetId" := props.publicSubnetId, "VpcId" := props.vpcId, "Region" := stack.region],
                                {EnableVpcDnsId})
      ensures pdns
              == CustomResource(CheckPrivateDnsId, "GetEnablePvdFunction",
                                map["EndpointServiceName" := CloudFormationServiceName(stack.region), "VpcId" := props.vpcId],
                                {EnableVpcDnsId})
      ensures cfn
              == InterfaceEndpoint(CloudFormationEndpointId, CloudFormationServiceName(stack.region),
                                   GetAtt(CheckPrivateDnsId, "CanEnablePrivateDns"), [props.publicSubnetId],
                                   [groups.securityGroup.id, bastion.securityGroupId], {EnableVpcDnsId})
      ensures groups.securityGroup.id == tokens.securityGroupIdOf(ClusterGroupLogicalId)
      ensures groups.securityGroup.egress == [OutboundTcp]
      ensures groups.securityGroup.ingress
              == ClusterIngress(bastion.securityGroupId, groups.securityGroup.id,
                                if clientGroup.Some? then Some(clientGroup.value.id) else None,
                                props.vpcCidr, DorisPorts)
      ensures forall i :: 0 <= i < |be.instances| ==>
                be.instances[i]
                == PlannedBeInstance(BeFleetPropsOf(props, assets, groups.securityGroup.id), stack,
                                     beTemplate, tokens, i).(dependencies := LaunchGates)
      ensures fe.instance
              == PlannedFeInstance(FeFleetPropsOf(props, assets, groups.securityGroup.id), stack, feTemplate, tokens,
                                   be.privateIps, defaultChildIsCfnInstance).(dependencies := LaunchGates)
      ensures outs == ClusterOutputs(bastion, groups.securityGroup.id,
                                     if clientGroup.Some? then Some(clientGroup.value.id) else None,
                                     fe.instance, be.instances)
    {
      var useClient := UseClientAccessSecurityGroup(props);
      dns, s3, pdns := CreateCustomResources(props.vpcId, props.publicSubnetId, stack.region);
      groups := new DorisSecurityGroups(props.vpcCidr, useClient, bastion.securityGroupId, DorisPorts, tokens);
      clientGroup := if useClient then groups.clientAccessSecurityGroup else None;
      cfn := CreateCloudFormationEndpoint(stack.region, props.publicSubnetId, groups.securityGroup.id,
                                              bastion.securityGroupId, dns, pdns);
      be, fe := CreateComputeComponents(props, stack, assets, groups.securityGroup.id, tokens, feTemplate,
                                            beTemplate, defaultChildIsCfnInstance, [s3.logicalId, cfn.logicalId]);
      assert [s3.logicalId, cfn.logicalId] == LaunchDependencies;
      LaunchDependenciesAreGates();
      WiredGraph(dns, s3, pdns, cfn, be.instances, fe.instance);
      var clientGroupId := if clientGroup.Some? then Some(clientGroup.value.id) else None;
      outs := ExposeOutputs(bastion, groups.securityGroup.id, clientGroupId, fe.instance, be.instances);
    }

    /** `_create_custom_resources`: DNS enablement, then the S3 gateway endpoint and the
        private-DNS check, each made to depend on DNS enablement. */
    static method CreateCustomResources(vpcId: string, subnetId: string, region: string)
      returns (dns: CustomResource, s3: CustomResource, pdns: CustomResource)
      ensures dns == CustomResource(EnableVpcDnsId, "EnableDnsFunction", map["VpcId" := vpcId], {})
      ensures s3 == CustomResource(EnsureS3EndpointId, "CreateS3EndpointFunction",
                                   map["SubnetId" := subnetId, "VpcId" := vpcId, "Region" := region], {EnableVpcDnsId})
      ensures pdns == CustomResource(CheckPrivateDnsId, "GetEnablePvdFunction",
                                     map["EndpointServiceName" := CloudFormationServiceName(region), "VpcId" := vpcId],
                                     {EnableVpcDnsId})
    {
      dns := CustomResource(EnableVpcDnsId, "EnableDnsFunction", map["VpcId" := vpcId], {});
      s3 := CustomResource(EnsureS3EndpointId, "CreateS3EndpointFunction",
                           map["SubnetId" := subnetId, "VpcId" := vpcId, "Region" := region], {});
      s3 := s3.(dependencies := s3.dependencies + {dns.logicalId});
      pdns := CustomResource(CheckPrivateDnsId, "GetEnablePvdFunction",
                             map["EndpointServiceName" := CloudFormationServiceName(region), "VpcId" := vpcId], {});
      pdns := pdns.(dependencies := pdns.dependencies + {dns.logicalId});
    }

    /** `_create_cloudformation_endpoint`: the interface endpoint in the public subnet, behind the
        cluster and bastion groups, with private DNS as the DNS check reports, after DNS enablement. */
    static method CreateCloudFormationEndpoint(region: string, subnetId: string, clusterGroupId: string,
                                               bastionGroupId: string, dns: CustomResource, pdns: CustomResource)
      returns (cfn: InterfaceEndpoint)
      ensures cfn == InterfaceEndpoint(CloudFormationEndpointId, CloudFormationServiceName(region),
                                       GetAtt(pdns.logicalId, "CanEnablePrivateDns"), [subnetId],
                                       [clusterGroupId, bastionGroupId], {dns.logicalId})
    {
      cfn := InterfaceEndpoint(CloudFormationEndpointId, CloudFormationServiceName(region),
                               GetAtt(pdns.logicalId, "CanEnablePrivateDns"), [subnetId],
                               [clusterGroupId, bastionGroupId], {});
      cfn := cfn.(dependencies := cfn.dependencies + {dns.logicalId});
    }

    /** `_create_compute_components`: the backend fleet, then the frontend fleet rendered with the
        backend addresses; both wait for the given launch dependencies. */
    static method CreateComputeComponents(props: ClusterProps, stack: Stack, assets: RegionAssets,
                                          clusterGroupId: string, tokens: Tokens, feTemplate: string,
                                          beTemplate: string, defaultChildIsCfnInstance: bool,
                                          launchDependencies: seq<string>)
      returns (be: DorisBeFleet, fe: DorisFeFleet)
      requires ParseInt(props.volumeSize).Some?
      ensures fresh(be) && fresh(fe)
      ensures be.Valid() && |be.instances| == NodeRange(props.beNodeCount)
      ensures forall i :: 0 <= i < |be.instances| ==>
                be.instances[i].logicalId == BeLogicalId(i) && be.instances[i].dependencies == Elements(launchDependencies)
      ensures forall i :: 0 <= i < |be.instances| ==>
                be.instances[i]
                == PlannedBeInstance(BeFleetPropsOf(props, assets, clusterGroupId), stack, beTemplate, tokens, i)
                   .(dependencies := Elements(launchDependencies))
      ensures fe.instance
              == PlannedFeInstance(FeFleetPropsOf(props, assets, clusterGroupId), stack, feTemplate, tokens,
                                   be.privateIps, defaultChildIsCfnInstance).(dependencies := Elements(launchDependencies))
    {
      be := new DorisBeFleet(BeFleetPropsOf(props, assets, clusterGroupId), stack, beTemplate, tokens);
      be.AddLaunchDependencies(launchDependencies);
      fe := new DorisFeFleet(FeFleetPropsOf(props, assets, clusterGroupId), stack, feTemplate, tokens,
                             be.privateIps, defaultChildIsCfnInstance);
      fe.AddLaunchDependencies(launchDependencies);
    }

    /** `_expose_outputs`: the fixed outputs, the client-group output only when that group
        exists, then one id/address pair per backend instance, numbered from 1. The construct's
        properties it reads are passed in. */
    static method ExposeOutputs(bastion: Bastion, clusterGroupId: string, clientGroupId: Option<string>,
                                fe: Instance, be: seq<Instance>)
      returns (outputs: seq<Output>)
      ensures outputs == ClusterOutputs(bastion, clusterGroupId, clientGroupId, fe, be)
    {
      outputs := [ Output("BastionEip", bastion.publicIp),
                   Output("BastionSecurityGroupId", bastion.securityGroupId),
                   Output("DorisSecurityGroupId", clusterGroupId) ];
      if clientGroupId.Some? {
        outputs := outputs + [Output(ClientGroupOutput, clientGroupId.value)];
      }
      outputs := outputs + [ Output("FeMasterInstanceId", fe.instanceId),
                             Output("FeMasterPrivateIp", IpOrUnassigned(fe.privateIp)) ];
      var fixed := outputs;
      var idx := 0;
      while idx < |be|
        invariant 0 <= idx <= |be|
        invariant outputs == fixed + BeOutputs(be[..idx])
      {
        assert be[..idx + 1][..idx] == be[..idx];
        outputs := outputs + BeOutputPair(idx + 1, be[idx]);
        idx := idx + 1;
      }
      assert be[..|be|] == be;
    }

    /** `client_access_security_group_id`: the client group's id, or an error when the
        construct has none. */
    function ClientAccessSecurityGroupId(): (r: Result<string, string>)
      reads this, securityGroups
      requires clientAccessSecurityGroup.Some? ==> securityGroups.clientAccessSecurityGroup == clientAccessSecurityGroup
      ensures r.Success? <==> clientAccessSecurityGroup.Some?
      ensures r.Success? ==> r.value == clientAccessSecurityGroup.value.id
      ensures r.Failure? ==> r.error == ClientGroupUnavailable
    {
      if clientAccessSecurityGroup.None? then Failure(ClientGroupUnavailable)
      else securityGroups.ClientAccessSecurityGroupId()
    }

    /** `fe_master_private_ip`: the address, or the placeholder while it is unknown. */
    function FeMasterPrivateIp(): (ip: string)
      reads this, feFleet
      ensures ip != ""
      ensures feFleet.instance.privateIp != "" ==> ip == feFleet.instance.privateIp
      ensures feFleet.instance.privateIp == "" ==> ip == UnassignedIp
    {
      IpOrUnassigned(feFleet.instance.privateIp)
    }

    /** `be_private_ip_addresses`: the prefix of `be_private_ips` of length `be_node_count`,
        which is the whole list, one address per backend instance. */
    function BePrivateIpAddresses(): (ips: seq<string>)
      reads this, securityGroups, beFleet, feFleet
      requires Valid()
      ensures ips == beFleet.privateIps
      ensures |ips| == |beFleet.instances|
      ensures forall i :: 0 <= i < |ips| ==> ips[i] == IpOrUnassigned(beFleet.instances[i].privateIp)
    {
      PyPrefix(beFleet.privateIps, props.beNodeCount)
    }

    /** The whole of `__init__`: validation, the client-group flag and asset resolution may
        fail; otherwise the construct is built. */
    static method Build(props: ClusterProps, stack: Stack, bastion: Bastion, tokens: Tokens,
                        feTemplate: string, beTemplate: string, defaultChildIsCfnInstance: bool)
      returns (r: Result<DorisCluster, ClusterError>)
      ensures ValidateProps(props).Fail? ==> r.Failure? && r.error == InvalidProps(ValidateProps(props).error)
      ensures ValidateProps(props).Pass? && ResolveRegionAssets(stack.region, props.dorisVersion).Failure? ==>
                r.Failure? && r.error == AssetUnavailable(ResolveRegionAssets(stack.region, props.dorisVersion).error)
      ensures r.Success? <==>
                ValidateProps(props).Pass? && ResolveRegionAssets(stack.region, props.dorisVersion).Success?
      ensures r.Success? ==>
                && fresh(r.value)
                && r.value.Valid()
                && r.value.props == props && r.value.stack == stack && r.value.bastion == bastion
                && r.value.assets == ResolveRegionAssets(stack.region, props.dorisVersion).value
                && r.value.Built(tokens, feTemplate, beTemplate, defaultChildIsCfnInstance)
                && (r.value.clientAccessSecurityGroup.Some? <==> !Truthy(props.vpcCidr))
    {
      var validation := ValidateProps(props);
      if validation.Fail? {
        return Failure(InvalidProps(validation.error));
      }
      var resolved := ResolveRegionAssets(stack.region, props.dorisVersion);
      if resolved.Failure? {
        return Failure(AssetUnavailable(resolved.error));
      }
      var cluster := new DorisCluster(props, stack, resolved.value, bastion, tokens, feTemplate, beTemplate,
                                      defaultChildIsCfnInstance);
      ClientGroupExcludesCidr(props);
      return Success(cluster);
    }
  }

  /** With every default, in us-east-1: validation passes, the client group is used, the 2.1.3
      assets are found, and the cluster group gets 19 ingress rules for three backends. */
  lemma DefaultDeployment(vpcId: string, publicSubnetId: string, keyPairName: string,
                          bastionGroupId: string, clusterGroupId: string, clientGroupId: string)
    ensures var p := DefaultProps(vpcId, publicSubnetId, keyPairName);
            && ValidateProps(p) == Pass
            && UseClientAccessSecurityGroup(p)
            && NodeRange(p.beNodeCount) == 3
            && ResolveRegionAssets("us-east-1", p.dorisVersion)
               == Success(RegionAssets(
                    "https://selectdb-cloud-online-us-east-1.s3.amazonaws.com/doris/2.1.3/apache-doris-2.1.3-bin-x64.tar.gz",
                    "https://selectdb-cloud-online-us-east-1.s3.amazonaws.com/doris/jdk-linux_x64.tar.gz",
                    "ami-02d7fd1c2af6eead0"))
            && |ClusterIngress(bastionGroupId, clusterGroupId, Some(clientGroupId), p.vpcCidr, DorisPorts)| == 19
  {
    DefaultPropsPass(vpcId, publicSubnetId, keyPairName);
    RegionAssetsAvailability("us-east-1", V213);
    IngressRuleCount(bastionGroupId, clusterGroupId, Some(clientGroupId), None, DorisPorts);
  }
}
