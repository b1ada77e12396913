# Apache Doris cluster construct — a Dafny model

This project models the core of `aws-cdk-apache-doris`, a CDK construct that deploys
an Apache Doris cluster on EC2. The construct is `DorisCluster`. It does the following:

- it validates its keyword arguments;
- it resolves the Doris archive, the JDK archive and the AMI for the stack's region and
  the chosen Doris version;
- it creates three Lambda-backed custom resources (VPC DNS enablement, an S3 gateway
  endpoint and a private-DNS capability check);
- it creates the cluster security groups, a CloudFormation interface endpoint, a
  backend fleet of `be_node_count` instances and one frontend master;
- it wires the explicit launch dependencies between these resources;
- it exposes stack outputs.

Each instance boots from a shell template. `render_user_data` fills in the template's
`__KEY__` placeholders.

The model is split into these modules:

| file | module | what it holds |
|---|---|---|
| `common.dfy` | `Common` | `Option`, `Result`, `Outcome`; Python truthiness of an optional string |
| `text.dfy` | `Text` | the Python string built-ins the code relies on: `find`, `split`, `join`, `replace`, `str(int)`, `int(str)` |
| `user_data.dfy` | `UserData` | `render_user_data` as a loop method, proved against a recursive specification |
| `options.dfy` | `Options` | the `StrEnum` option classes, as closed datatypes with their string values |
| `resources.dfy` | `Resources` | descriptors of the CDK objects: stack, instance, block device, creation policy |
| `security_groups.dfy` | `SecurityGroups` | the `DorisSecurityGroups` construct, as a class whose constructor runs the port loop |
| `be_fleet.dfy` | `BeFleet` | the `DorisBeFleet` construct, as a class with the node loop |
| `fe_fleet.dfy` | `FeFleet` | the `DorisFeFleet` construct, as a class |
| `graph.dfy` | `Graph` | dependency graphs, and the fact that a layered graph has no cycle |
| `doris_cluster.dfy` | `Cluster` | validation, the asset tables, the dependency wiring, the outputs and the `DorisCluster` class |

## How the model treats the CDK

CDK objects become plain descriptor values held in class fields. A call such as
`add_ingress_rule` or `node.add_dependency` reassigns the field with an updated value.

Some values are computed by the CDK at synthesis or deploy time:

- instance ids;
- private addresses;
- security-group ids;
- the stack id and region.

These come from outside. `Tokens` maps a logical id to the token the CDK would return,
and `Stack` carries the stack's id and region. A private address the CDK leaves empty is
the empty string, which the code replaces with `"0.0.0.0"`.

Three behaviours of the code are worth stating, because a reader might expect otherwise:

- **Rendering is sequential.** The code applies one `str.replace` per key, in mapping
  order, each to the text the earlier keys produced. So a value that contains a later
  key's token is expanded again (`UserData.RenderRewritesInsertedTokens`), and rendering
  twice is not always the same as rendering once (`UserData.RenderNotIdempotent`).
- **The security-group construct adds both rule sets.** Given both a client group and a
  CIDR, `DorisSecurityGroups` adds the client-group rules and the CIDR rules. Only the
  validation in `DorisCluster` keeps the two apart (`Cluster.ClientGroupExcludesCidr`).
- **Egress is TCP only.** The cluster group turns `allow_all_outbound` off and adds a single
  egress rule for TCP ports 0–65535 to any IPv4 address, so outbound UDP is not allowed.

Another detail of the code: `fe_node_count` is validated but not used otherwise. There is
always exactly one frontend instance.

## Model

All source paths are relative to the repository root.

| member | source | states |
|---|---|---|
| Cluster.DorisCluster.constructor | src/aws_cdk_apache_doris/doris_cluster.py:142-175 | stores the props, region assets and bastion, and `Built` holds: the custom resources get their exact properties, and each endpoint and the DNS check depend on DNS enablement. The cluster group has the one outbound rule and the bastion-then-ports ingress. Backend instance `i` is the fleet's planned instance `i` waiting on the S3 and CloudFormation endpoints. The frontend instance is the fleet's planned instance (the FE instance type, the region's AMI, the key pair, the public subnet, the cluster group, its script rendered with the backend addresses) waiting on the same two endpoints. The client group, when there is one, has the client group's id and description and no rules. The outputs are `ClusterOutputs`. `Valid()` holds: the client group exists iff the mode is `security-group`, backend slot `i` holds instance `i`'s address, and the dependency graph is `PlannedGraph` |
| Cluster.DorisCluster.Assemble | src/aws_cdk_apache_doris/doris_cluster.py:170-175 | runs the resource-creating steps in source order and returns what each created, with the same properties as the constructor, including the planned frontend instance and the client group's id |
| Cluster.DorisCluster.Build | src/aws_cdk_apache_doris/doris_cluster.py:163-168 | construction fails with the validation error when validation fails, otherwise with the lookup error when asset resolution fails. It succeeds exactly when both pass, and then the new construct is valid, keeps the props and assets, and has a client group iff no CIDR is set. It also keeps the stack and bastion, and satisfies `Built`: every resource, instance, group and output equals its plan as the constructor states |
| Cluster.RequireRegionLookup | src/aws_cdk_apache_doris/doris_cluster.py:110-114 | succeeds iff the key is in the mapping, with the mapped value; otherwise it fails with an error naming the label and the key |
| Cluster.ResolveAssets | src/aws_cdk_apache_doris/doris_cluster.py:197-219 | the four lookups in source order (region in downloads, version in the region's entry, region in the JDK table, region in the AMI table). The first missing key decides the error. It succeeds iff all four keys exist, with the three looked-up values |
| Cluster.RegionAssetsAvailability | src/aws_cdk_apache_doris/doris_cluster.py:84-107 | with the construct's tables, resolution succeeds iff the region is `us-east-1`, `us-west-1` or `us-west-2`, for both versions. Elsewhere it fails on the region lookup in the downloads table |
| Cluster.DefaultProps | src/aws_cdk_apache_doris/doris_cluster.py:118-141 | the defaults: one frontend, three backends, volume size `"50"`, no CIDR, `security-group` mode |
| Cluster.ValidateProps | src/aws_cdk_apache_doris/doris_cluster.py:177-195 | props pass iff both node counts are positive, `int(volume_size)` succeeds, and a truthy CIDR is given exactly in `cidr` mode |
| Cluster.ValidationOrder | src/aws_cdk_apache_doris/doris_cluster.py:177-195 | each of the five errors is raised exactly when every earlier check passed and its own check fails |
| Cluster.ClientGroupExcludesCidr | src/aws_cdk_apache_doris/doris_cluster.py:165-167 | after validation, `use_client_access_security_group` holds iff no CIDR is set |
| Cluster.VolumeSizeOnlyParses | src/aws_cdk_apache_doris/doris_cluster.py:183-186 | `int()` is the only size check: `"50"`, `"0"`, `"-5"` and `" 50\n"` pass, while `"abc"`, `""` and `"\x1c50"` fail with the numeric-string error |
| Cluster.VolumeSizeParses | src/aws_cdk_apache_doris/doris_cluster.py:184 | how `int()` reads those seven sizes |
| Cluster.DorisCluster.CreateCustomResources | src/aws_cdk_apache_doris/doris_cluster.py:295-323 | the three custom resources with their ids, handlers and properties. The S3 endpoint and the DNS check depend on DNS enablement, and DNS enablement depends on nothing |
| Cluster.DorisCluster.CreateCloudFormationEndpoint | src/aws_cdk_apache_doris/doris_cluster.py:353-373 | the interface endpoint for `com.amazonaws.<region>.cloudformation` in the public subnet, behind the cluster and bastion groups. Private DNS follows the check's `CanEnablePrivateDns` attribute, and the endpoint depends on DNS enablement |
| Cluster.DorisCluster.CreateComputeComponents | src/aws_cdk_apache_doris/doris_cluster.py:375-417 | a fresh backend fleet of `NodeRange(be_node_count)` planned instances and a fresh frontend that is the planned frontend instance for the FE instance type, rendered with the backend fleet's addresses. Every instance gains exactly the given launch dependencies |
| Cluster.LaunchDependenciesAreGates | src/aws_cdk_apache_doris/doris_cluster.py:393 | the launch dependencies are the S3 endpoint and the CloudFormation endpoint |
| Cluster.WiredGraph | src/aws_cdk_apache_doris/doris_cluster.py:312-415 | resources wired as the construct wires them form `PlannedGraph` |
| Cluster.PlannedGraphEdges | src/aws_cdk_apache_doris/doris_cluster.py:312-415 | the edges are exactly: each endpoint and the DNS check on DNS enablement, and every instance on the S3 and CloudFormation endpoints |
| Cluster.PlannedGraphEdgeSound | src/aws_cdk_apache_doris/doris_cluster.py:312-415 | every edge of the graph is one of the wired dependencies |
| Cluster.PlannedGraphEdgeComplete | src/aws_cdk_apache_doris/doris_cluster.py:312-415 | every wired dependency is an edge of the graph |
| Cluster.PlannedGraphAcyclic | src/aws_cdk_apache_doris/doris_cluster.py:312-415 | the dependency graph has no cycle, for any number of backend nodes |
| Cluster.BeLogicalIdIsInstance | src/aws_cdk_apache_doris/constructs/be_fleet.py:53 | a backend logical id is none of the fixed resource ids |
| Cluster.DorisCluster.ExposeOutputs | src/aws_cdk_apache_doris/doris_cluster.py:419-438 | the loop emits `ClusterOutputs`: the fixed outputs, the client-group output only when that group exists, then an id/address pair per backend |
| Cluster.BeOutputsLayout | src/aws_cdk_apache_doris/doris_cluster.py:432-438 | backend `k` (from 0) owns outputs `2k` (`BeInstance{k+1}`, its id) and `2k+1` (`BeInstancePrivateIp{k+1}`, its address or `0.0.0.0`) |
| Cluster.BeOutputAt | src/aws_cdk_apache_doris/doris_cluster.py:432-438 | backend output `q` is named after instance `q/2 + 1`, as an address when `q` is odd |
| Cluster.BeOutputNameKinds | src/aws_cdk_apache_doris/doris_cluster.py:433-436 | an address output name never equals an id output name |
| Cluster.BeOutputNameInjective | src/aws_cdk_apache_doris/doris_cluster.py:433-436 | equal backend output names have the same number and kind |
| Cluster.BeOutputNamesUnique | src/aws_cdk_apache_doris/doris_cluster.py:432-438 | backend output names are pairwise distinct and begin with `Be` |
| Cluster.FixedOutputNamesUnique | src/aws_cdk_apache_doris/doris_cluster.py:420-430 | the outputs before the loop have distinct names, none beginning with `Be`. The client-group name is among them iff there is a client group |
| Cluster.OutputNamesUnique | src/aws_cdk_apache_doris/doris_cluster.py:419-438 | no two `CfnOutput`s share a name |
| Cluster.ClientGroupOutputIff | src/aws_cdk_apache_doris/doris_cluster.py:423-428 | the client-group output is present iff there is a client group, and then it is fourth and carries the group's id |
| Cluster.DorisCluster.ClientAccessSecurityGroupId | src/aws_cdk_apache_doris/doris_cluster.py:452-459 | the client group's id when there is one. Otherwise the error that the group is only available in `security-group` mode |
| Cluster.DorisCluster.FeMasterPrivateIp | src/aws_cdk_apache_doris/doris_cluster.py:461-463 | never empty; the instance's address whenever it has one, and `0.0.0.0` when it has none |
| Cluster.PyPrefix | src/aws_cdk_apache_doris/doris_cluster.py:467 | a Python slice `[:n]` is a prefix, and the whole list when `n` reaches its length |
| Cluster.DorisCluster.BePrivateIpAddresses | src/aws_cdk_apache_doris/doris_cluster.py:465-467 | on a valid construct, the prefix is the whole address list: one address per backend instance, the instance's own address or `0.0.0.0` |
| Cluster.DefaultDeployment | src/aws_cdk_apache_doris/doris_cluster.py:118-219 | with every default in `us-east-1`: validation passes, the client group is used, there are three backends, the 2.1.3 archive, JDK and AMI of that region are resolved, and the cluster group has 19 ingress rules |
| Cluster.SurroundingSpaceParses | src/aws_cdk_apache_doris/doris_cluster.py:184 | `int()` strips a surrounding space and line feed, so `" 50\n"` reads as 50, but keeps the separator U+001C, so `"\x1c50"` is refused |
| Cluster.DefaultPropsPass | src/aws_cdk_apache_doris/doris_cluster.py:177-195 | the default props pass every check of `_validate_props` |
| SecurityGroups.DorisSecurityGroups.constructor | src/aws_cdk_apache_doris/constructs/security_groups.py:21-71 | the client group exists iff requested, and is empty. The cluster group keeps its id and description, does not allow all outbound traffic, has exactly the TCP 0–65535 egress rule, and its ingress is `ClusterIngress` (SSH from the bastion, then the per-port rules in port order) |
| SecurityGroups.SecurityGroup.AddIngressRule | src/aws_cdk_apache_doris/constructs/security_groups.py:45-49 | the ingress list grows by one: the old rules are kept as a prefix and the new rule, with the given peer, port and description, is last. The egress rules, id, description and outbound flag are unchanged |
| SecurityGroups.SecurityGroup.AddEgressRule | src/aws_cdk_apache_doris/constructs/security_groups.py:39-43 | the egress list grows by one: the old rules are kept as a prefix and the new rule, with the given peer, port and description, is last. The ingress rules, id, description and outbound flag are unchanged |
| SecurityGroups.AddPortRules | src/aws_cdk_apache_doris/constructs/security_groups.py:51-71 | one loop turn appends exactly that port's rules and changes nothing else |
| SecurityGroups.PortRules | src/aws_cdk_apache_doris/constructs/security_groups.py:51-71 | a port contributes 1 + [client group] + [truthy CIDR] rules |
| SecurityGroups.PortRulesOrder | src/aws_cdk_apache_doris/constructs/security_groups.py:53-71 | a port's rules in order: from the cluster group itself, then from the client group, then from the CIDR, each with its description |
| SecurityGroups.IngressRuleCount | src/aws_cdk_apache_doris/constructs/security_groups.py:45-71 | total ingress = 1 + ports × (1 + [client group] + [truthy CIDR]) |
| SecurityGroups.IngressRuleLayout | src/aws_cdk_apache_doris/constructs/security_groups.py:45-71 | rule 0 is SSH from the bastion. Port `k`'s rules start at `1 + k·w` in the order above, where `w` is the per-port rule count |
| SecurityGroups.IngressPeers | src/aws_cdk_apache_doris/constructs/security_groups.py:45-71 | every ingress rule comes from the bastion, the cluster group, the client group (only when it exists) or the CIDR (only when truthy) |
| SecurityGroups.ClusterIngressStep | src/aws_cdk_apache_doris/constructs/security_groups.py:51-71 | one more loop turn appends exactly that port's rules |
| SecurityGroups.DorisSecurityGroups.ClientAccessSecurityGroupId | src/aws_cdk_apache_doris/constructs/security_groups.py:81-87 | the client group's id when there is one. Otherwise the `ValueError` message for CIDR mode |
| BeFleet.DorisBeFleet.constructor | src/aws_cdk_apache_doris/constructs/be_fleet.py:35-75 | `max(node_count, 0)` instances. Instance `i` is `BeInstance{i+1}` with its own rendered script, the shared block devices and no dependencies, and slot `i` of `private_ips` holds its address or `0.0.0.0` |
| BeFleet.DorisBeFleet.AddLaunchDependencies | src/aws_cdk_apache_doris/constructs/be_fleet.py:77-80 | every instance gains every dependency; the addresses and everything else stay unchanged |
| BeFleet.BeLogicalIdsDistinct | src/aws_cdk_apache_doris/constructs/be_fleet.py:53 | distinct nodes get distinct logical ids |
| BeFleet.BeBindingsPerNode | src/aws_cdk_apache_doris/constructs/be_fleet.py:82-104 | every node uses the same seven keys in order, and two nodes' mappings differ only in `LOGICAL_ID`, which is the node's own id |
| BeFleet.BeBlockDevices | src/aws_cdk_apache_doris/constructs/be_fleet.py:106-131 | `/dev/xvdh` of the configured size and `/dev/xvdt` of 50 GiB, both of the configured type and IOPS, both deleted on termination |
| BeFleet.PlannedBeInstance | src/aws_cdk_apache_doris/constructs/be_fleet.py:53-72 | the planned instance has its node's logical id, no dependencies and no creation policy |
| FeFleet.DorisFeFleet.constructor | src/aws_cdk_apache_doris/constructs/fe_fleet.py:35-78 | the instance is `PlannedFeInstance`: one `FeMasterInstance` with its tokens and the given settings, its script rendered once from the given backend addresses, one block device, no dependencies, and the one-signal, 60-minute creation policy only when its default child is a `CfnInstance` |
| FeFleet.DorisFeFleet.AddLaunchDependencies | src/aws_cdk_apache_doris/constructs/fe_fleet.py:80-82 | the instance gains exactly the given dependencies; nothing else changes |
| FeFleet.BeIpArgsRoundTrip | src/aws_cdk_apache_doris/constructs/fe_fleet.py:94 | no addresses give the empty string. Otherwise splitting on a space gives back the addresses, when none holds a space |
| FeFleet.FeBindingsShape | src/aws_cdk_apache_doris/constructs/fe_fleet.py:95-107 | eight keys in order, no `LOGICAL_ID`, and `BE_IP_ARGS` last, bound to the joined addresses |
| FeFleet.FeBlockDevices | src/aws_cdk_apache_doris/constructs/fe_fleet.py:57-67 | one `/dev/xvdt` device of 50 GiB, of the configured type and IOPS, deleted on termination |
| Resources.Iops | src/aws_cdk_apache_doris/constructs/be_fleet.py:36 | IOPS are provisioned (1000) iff the volume type is `io1` |
| Resources.IpOrUnassigned | src/aws_cdk_apache_doris/constructs/be_fleet.py:75 | never empty; the address itself when it is non-empty, `0.0.0.0` otherwise |
| Resources.Elements | src/aws_cdk_apache_doris/constructs/be_fleet.py:78-80 | the set of dependencies holds exactly the listed ones |
| UserData.RenderUserData | src/aws_cdk_apache_doris/user_data/__init__.py:18-22 | the loop's result is `Render`: each binding's replacement applied in mapping order to the text produced so far |
| UserData.Token | src/aws_cdk_apache_doris/user_data/__init__.py:21 | the placeholder is the key wrapped in two underscores on each side |
| UserData.Keys | src/aws_cdk_apache_doris/user_data/__init__.py:20 | the keys of the mapping, in order |
| UserData.RenderAppend | src/aws_cdk_apache_doris/user_data/__init__.py:19-21 | rendering with `b1 + b2` is rendering with `b1`, then rendering that result with `b2` |
| UserData.RenderFirst | src/aws_cdk_apache_doris/user_data/__init__.py:19-21 | the first binding is applied to the template itself |
| UserData.RenderOneBinding | src/aws_cdk_apache_doris/user_data/__init__.py:21 | one binding replaces every non-overlapping occurrence of its token: the token-free pieces joined by the value |
| UserData.RenderUntouched | src/aws_cdk_apache_doris/user_data/__init__.py:18-22 | a template holding none of the tokens comes back unchanged |
| UserData.RenderRewritesInsertedTokens | src/aws_cdk_apache_doris/user_data/__init__.py:20-21 | a later key rewrites a token that an earlier value inserted, so binding order matters |
| UserData.RenderNotIdempotent | src/aws_cdk_apache_doris/user_data/__init__.py:18-22 | rendering twice can differ from rendering once |
| UserData.UnknownTokens | src/aws_cdk_apache_doris/user_data/__init__.py:21 | an unknown token survives on its own, but not when it shares underscores with a replaced token |
| Text.FindFrom | src/aws_cdk_apache_doris/user_data/__init__.py:21 | a found index is at or after the start, with the pattern fitting before the end |
| Text.FindFromOccurs | src/aws_cdk_apache_doris/user_data/__init__.py:21 | the found index is an occurrence |
| Text.FindFromIsFirst | src/aws_cdk_apache_doris/user_data/__init__.py:21 | no occurrence lies between the start and the found index (or after the start, when none is found) |
| Text.ReplaceIsJoinOfSplit | src/aws_cdk_apache_doris/user_data/__init__.py:21 | the scanning `str.replace` equals `rep.join(s.split(pat))` |
| Text.SplitPiecesAvoidSeparator | src/aws_cdk_apache_doris/user_data/__init__.py:21 | no piece of a split contains the separator |
| Text.JoinSplit | src/aws_cdk_apache_doris/user_data/__init__.py:21 | `sep.join(s.split(sep)) == s` |
| Text.ReplaceAbsent | src/aws_cdk_apache_doris/user_data/__init__.py:21 | replacing an absent pattern changes nothing |
| Text.ReplaceBySelf | src/aws_cdk_apache_doris/user_data/__init__.py:21 | replacing a pattern by itself changes nothing |
| Text.SplitJoinChar | src/aws_cdk_apache_doris/constructs/fe_fleet.py:94 | splitting a list joined on a character that no element holds gives back the list |
| Text.ParseShowInt | src/aws_cdk_apache_doris/doris_cluster.py:184 | in the model, `int(str(n)) == n` exactly when `n` has at most 4300 digits; with more, `int()` refuses the string |
| Text.ShowIntInjective | src/aws_cdk_apache_doris/constructs/be_fleet.py:53 | `str` is injective on integers |
| Text.ShowNat | src/aws_cdk_apache_doris/constructs/be_fleet.py:53 | `str(n)` of a natural number is non-empty and all decimal digits |
| Cluster.DorisPortsDistinct | src/aws_cdk_apache_doris/doris_cluster.py:33 | no Doris port is listed twice |
| Cluster.UseClientAccessSecurityGroup | src/aws_cdk_apache_doris/doris_cluster.py:165-167 | definition: the mode is `security-group`; `Cluster.ClientGroupExcludesCidr` relates it to the CIDR |
| Cluster.ResolveRegionAssets | src/aws_cdk_apache_doris/doris_cluster.py:197-219 | definition: `ResolveAssets` over the construct's three tables; `Cluster.RegionAssetsAvailability` states where it succeeds |
| Cluster.RepeatedOnesParse | src/aws_cdk_apache_doris/doris_cluster.py:184 | a string of `n` ones parses iff `n` is at most 4300 |
| Cluster.VolumeSizeDigitLimit | src/aws_cdk_apache_doris/doris_cluster.py:183-186 | a 4300-digit volume size passes validation; a 4301-digit one fails with the numeric-string error |
| Cluster.BeOutputName | src/aws_cdk_apache_doris/doris_cluster.py:433-436 | definition: `BeInstance{idx}` or `BeInstancePrivateIp{idx}`; `Cluster.BeOutputNameInjective` and `Cluster.BeOutputNameKinds` state its properties |
| Cluster.ClusterOutputs | src/aws_cdk_apache_doris/doris_cluster.py:419-438 | definition: the fixed outputs, the optional client-group output, then the backend pairs; `Cluster.OutputNamesUnique`, `Cluster.BeOutputsLayout` and `Cluster.ClientGroupOutputIff` state its properties |
| BeFleet.BeLogicalId | src/aws_cdk_apache_doris/constructs/be_fleet.py:53 | definition: `BeInstance{index + 1}`; `BeFleet.BeLogicalIdsDistinct` states that it is injective |
| BeFleet.BeBindings | src/aws_cdk_apache_doris/constructs/be_fleet.py:95-103 | definition: the seven-entry mapping for one node; `BeFleet.BeBindingsPerNode` states its shape |
| FeFleet.PlannedFeInstance | src/aws_cdk_apache_doris/constructs/fe_fleet.py:35-78 | the planned instance is `FeMasterInstance` with no dependencies, and takes its instance type, AMI, key pair, subnet and security group from the fleet's props. Its creation policy is one signal within `PT60M` when its default child is a `CfnInstance`, and absent otherwise |
| FeFleet.BeIpArgs | src/aws_cdk_apache_doris/constructs/fe_fleet.py:94 | definition: the addresses joined by single spaces; `FeFleet.BeIpArgsRoundTrip` states what splitting gives back |
| FeFleet.FeBindings | src/aws_cdk_apache_doris/constructs/fe_fleet.py:95-107 | definition: the eight-entry mapping; `FeFleet.FeBindingsShape` states its shape |
| UserData.Render | src/aws_cdk_apache_doris/user_data/__init__.py:18-22 | definition: the bindings applied in order; `UserData.RenderUserData` is the loop proved against it, and `UserData.RenderOneBinding` relates one step to split and join |
| Text.Replace | src/aws_cdk_apache_doris/user_data/__init__.py:21 | definition: a left-to-right scan replacing each non-overlapping match; `Text.ReplaceIsJoinOfSplit` ties it to split and join |
| Text.Split | src/aws_cdk_apache_doris/user_data/__init__.py:21 | definition: the pieces between successive first matches; `Text.JoinSplit` and `Text.SplitPiecesAvoidSeparator` state its properties |
| Text.Join | src/aws_cdk_apache_doris/constructs/fe_fleet.py:94 | definition: the elements with the separator between them; `Text.SplitJoinChar` states the round trip |
| Text.ParseInt | src/aws_cdk_apache_doris/doris_cluster.py:184 | definition: `int()` in base 10 (strip of ASCII tab, line feed, vertical tab, form feed, carriage return and space and of non-ASCII Unicode spaces, sign, digits with single underscores, at most 4300 digits); `Text.ParseShowInt` is its round trip with `str` |
| Text.ShowInt | src/aws_cdk_apache_doris/constructs/be_fleet.py:53 | definition: `str()` of an int; `Text.ParseShowInt` and `Text.ShowIntInjective` state its properties |
| Text.ShowIntSign | src/aws_cdk_apache_doris/constructs/be_fleet.py:53 | `str(n)` begins with `-` exactly when `n` is negative |
| Text.ShowNatInjective | src/aws_cdk_apache_doris/constructs/be_fleet.py:53 | `str` is injective on natural numbers |

## Left out

- The IAM role, the three Lambda functions and their handler code are not part of this model. A custom resource names its handler by logical id, and its service token is not modelled.
- The bastion host (`constructs/bastion.py`) is not part of this model. It enters only as its security-group id and public address.
- Template loading (`_load_template`) reads files from disk, so the templates are opaque string parameters.
- The CDK itself is left out: synthesis, the VPC and subnet objects, machine images, `InstanceType` parsing and IAM semantics. Ids, addresses and the stack's identity are parameters (`Tokens`, `Stack`).
- `ec2.EbsDeviceVolumeType[volume_type.upper()]` is not modelled as a lookup: the volume type is the closed option itself, so that lookup cannot fail.
- `isinstance(cfn_instance, ec2.CfnInstance)` in the frontend fleet is a boolean parameter.
- Dependencies the CDK adds implicitly from references (security groups used by instances, the DNS check's attribute used by the endpoint) are not in the graph. Only explicit `node.add_dependency` edges are.
- Text.ParseInt: Python's `int()` also accepts non-ASCII Unicode decimal digits. The model accepts only ASCII digits, together with the whitespace `int()` strips (ASCII tab, line feed, vertical tab, form feed, carriage return and space, and the non-ASCII Unicode spaces, but not the ASCII separators U+001C to U+001F), sign, single underscores and the default limit of 4300 digits. The limit is CPython's default; a program that changes it with `sys.set_int_max_str_digits` is not modelled.
- Text.ShowInt: Python's `str()` refuses an int of more than 4300 digits. The model shows every int. The code shows only port numbers and node numbers, which are far below the limit.
- Text.Replace, Text.Split: only non-empty patterns are modelled. Every placeholder and separator the code uses is non-empty.
- BeFleet.DorisBeFleet.constructor: requires `int(volume_size)` to succeed, so the `ValueError` that `DorisBeFleet` itself raises for a non-numeric size is not modelled. Its only caller, the cluster, validates the size first.
- SecurityGroups.SecurityGroup.AddIngressRule: the CDK skips a rule the group already holds, while the model always appends. So `SecurityGroups.IngressRuleCount` and the constructor's ingress list match the CDK only for a port list without repeats. The construct's own port list has none (`Cluster.DorisPortsDistinct`).
- Cluster.DorisCluster.constructor: requires `int(volume_size)` to succeed, which `Cluster.DorisCluster.Build` establishes through validation first. The failing path is modelled by `Build`.
- Cluster.DorisCluster.ExposeOutputs: it is a static method over the values the properties read, rather than an instance method, and `CfnOutput` registration is modelled as a list of name/value pairs.
- Cluster.DorisCluster.constructor: the construct's stored scalar attributes (`vpc`, `key_pair_name`, `log_dir`, …) are kept as the one `props` value. The derived `be_instances`, `be_private_ips` and `fe_master_instance` attributes are reached through the fleets.
- Cluster.RegionAssetsAvailability: it states which table entries are used, not the layout of the URLs themselves. The tables hold the URLs and AMI ids verbatim.
- The `doris_download_package_url`, `jdk_download_package_url`, `bastion_public_ip`, `bastion_security_group_id` and `doris_security_group_id` properties only return a stored field. They are reached through `assets`, `bastion` and `securityGroups`.
- Synthesis is single-threaded, and nothing in this model is concurrent.
