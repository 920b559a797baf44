/** The EC2 side of cluster initialisation and the security-group table:
    the tag sets written by `UpdateVPCTagForCluster` /
    `UpdateSubnetsTagForCluster` (pkg/aws/ec2.go) and their command copies
    `_update_vpc_tag_for_cluster` / `_update_subnets_tag_for_cluster`
    (cmd/kubenx/cmd/internal_ec2.go), and the rows of
    `_print_security_group_info`. */
module Ec2 {

  import opened Wrappers
  import opened GoStrconv

  datatype Tag = Tag(key: string, value: string)

  function ClusterTagKey(cluster: string): string
  {
    "kubernetes.io/cluster/" + cluster
  }

  const SharedValue: string := "shared"
  const PublicElbKey: string := "kubernetes.io/role/elb"
  const InternalElbKey: string := "kubernetes.io/role/internal-elb"

  /** The load-balancer role key for a public or a private subnet. */
  function ElbKey(public: bool): string
  {
    if public then PublicElbKey else InternalElbKey
  }

  /** The single tag written on the cluster's VPC. */
  function VpcTags(cluster: string): (tags: seq<Tag>)
    ensures |tags| == 1 && Tag(ClusterTagKey(cluster), SharedValue) in tags
  {
    [Tag(ClusterTagKey(cluster), SharedValue)]
  }

  /** The two tags written on subnets of the given type: the cluster tag
      and the load-balancer role, `elb` for "public" and `internal-elb`
      for ANY other type string. */
  function SubnetTags(cluster: string, subnetType: string): (tags: seq<Tag>)
    ensures |tags| == 2
    ensures Tag(ClusterTagKey(cluster), SharedValue) in tags
    ensures Tag(ElbKey(subnetType == "public"), "1") in tags
    ensures forall t :: t in tags ==> t.key == ClusterTagKey(cluster) || t.key == ElbKey(subnetType == "public")
  {
    [Tag(ClusterTagKey(cluster), SharedValue), Tag(ElbKey(subnetType == "public"), "1")]
  }

  /** The `ec2.CreateTagsInput` of a call. */
  datatype CreateTagsRequest = CreateTagsRequest(resources: seq<string>, tags: seq<Tag>)

  function VpcTagRequest(vpcId: string, cluster: string): (req: CreateTagsRequest)
    ensures req.resources == [vpcId] && req.tags == VpcTags(cluster)
  {
    CreateTagsRequest([vpcId], VpcTags(cluster))
  }

  function SubnetTagRequest(subnets: seq<string>, cluster: string, subnetType: string): (req: CreateTagsRequest)
    ensures req.resources == subnets && req.tags == SubnetTags(cluster, subnetType)
  {
    CreateTagsRequest(subnets, SubnetTags(cluster, subnetType))
  }

  /** Which copy makes the call: pkg/aws returns the SDK error to its
      caller, the command copy prints it and exits. */
  datatype Copy = PkgAws | Command

  /** The end of an update call, given the error (if any) of `CreateTags`. */
  function TagCallOutcome(copy: Copy, apiError: Option<string>): (r: Outcome<()>)
    ensures apiError.None? <==> r == Ok(())
    ensures apiError.Some? && copy == PkgAws ==> r == Err(apiError.value)
    ensures apiError.Some? && copy == Command ==> r == Exit(apiError.value)
  {
    match apiError
    case None => Ok(())
    case Some(e) => if copy == PkgAws then Err(e) else Exit(e)
  }

  // ---------------------------------------------- effect of CreateTags

  predicate KeyIn(key: string, tags: seq<Tag>)
  {
    exists i :: 0 <= i < |tags| && tags[i].key == key
  }

  /** The tags of `existing` whose key is not written by `added`. */
  function WithoutKeys(existing: seq<Tag>, added: seq<Tag>): (r: seq<Tag>)
    ensures forall t :: t in r <==> t in existing && !KeyIn(t.key, added)
  {
    if |existing| == 0 then []
    else
      var rest := WithoutKeys(existing[1..], added);
      assert forall t :: t in existing <==> t == existing[0] || t in existing[1..];
      if KeyIn(existing[0].key, added) then rest else [existing[0]] + rest
  }

  /** A resource's tags after `CreateTags`: a written key replaces the old
      value of that key, other tags stay. The EC2 service's behaviour, not
      the program's. */
  function ApplyTags(existing: seq<Tag>, added: seq<Tag>): (r: seq<Tag>)
    ensures forall t :: t in added ==> t in r
    ensures forall t :: t in r <==> t in added || (t in existing && !KeyIn(t.key, added))
  {
    WithoutKeys(existing, added) + added
  }

  // -------------------------------------------------- security groups

  /** An IP range and a group pair of a rule; as in the rule itself, a
      `nil` pointer field of the SDK type is `None`. */
  datatype IpRange = IpRange(cidrIp: Option<string>, description: Option<string>)
  datatype GroupPair = GroupPair(groupId: Option<string>, description: Option<string>)
  /** One inbound rule; a `nil` pointer field of the SDK type is `None`. */
  datatype IpPermission = IpPermission(
    ipProtocol: Option<string>, fromPort: Option<int64>, ipRanges: seq<IpRange>, groupPairs: seq<GroupPair>)

  const InboundType: string := "Inbound"

  /** The Protocol and Port Range columns of a rule; `None` when
      `IpProtocol` is nil, or when `FromPort` is nil for a specific protocol
      (dereferencing either panics). */
  function ProtocolColumns(p: IpPermission): (r: Option<(string, string)>)
    ensures p.ipProtocol.None? ==> r.None?
    ensures p.ipProtocol == Some("-1") ==> r == Some(("All Traffic", "All"))
    ensures p.ipProtocol.Some? && p.ipProtocol.value != "-1" && p.fromPort.Some? ==>
      r == Some((p.ipProtocol.value, FormatInt(p.fromPort.value as int)))
    ensures p.ipProtocol.Some? && p.ipProtocol.value != "-1" && p.fromPort.None? ==> r.None?
  {
    match p.ipProtocol
    case None => None
    case Some(protocol) =>
      if protocol == "-1" then Some(("All Traffic", "All"))
      else match p.fromPort
        case Some(port) => Some((protocol, FormatInt(port as int)))
        case None => None
  }

  /** Every range has its CIDR and its description set. */
  predicate RangesSet(ranges: seq<IpRange>)
  {
    forall i :: 0 <= i < |ranges| ==> ranges[i].cidrIp.Some? && ranges[i].description.Some?
  }

  /** Every group pair has its group id and its description set. */
  predicate PairsSet(pairs: seq<GroupPair>)
  {
    forall i :: 0 <= i < |pairs| ==> pairs[i].groupId.Some? && pairs[i].description.Some?
  }

  /** A rule renders without a nil dereference. */
  predicate Renderable(p: IpPermission)
  {
    ProtocolColumns(p).Some? && RangesSet(p.ipRanges) && PairsSet(p.groupPairs)
  }

  /** One row per IP range: its CIDR and description. */
  function RangeRows(protocol: string, portRange: string, ranges: seq<IpRange>): seq<seq<string>>
    requires RangesSet(ranges)
  {
    if |ranges| == 0 then []
    else
      var r := ranges[|ranges| - 1];
      RangeRows(protocol, portRange, ranges[..|ranges| - 1])
        + [[InboundType, protocol, portRange, r.cidrIp.value, r.description.value]]
  }

  /** One row per security-group pair: its group id and description. */
  function PairRows(protocol: string, portRange: string, pairs: seq<GroupPair>): seq<seq<string>>
    requires PairsSet(pairs)
  {
    if |pairs| == 0 then []
    else
      var g := pairs[|pairs| - 1];
      PairRows(protocol, portRange, pairs[..|pairs| - 1])
        + [[InboundType, protocol, portRange, g.groupId.value, g.description.value]]
  }

  /** The rows of one renderable rule: one per IP range, then one per
      security-group pair. */
  function PermissionRows(p: IpPermission): seq<seq<string>>
    requires Renderable(p)
  {
    var (protocol, portRange) := ProtocolColumns(p).value;
    RangeRows(protocol, portRange, p.ipRanges) + PairRows(protocol, portRange, p.groupPairs)
  }

  /** The rows of the rules in order, or a panic at the first rule that
      cannot be rendered. */
  function GroupRows(perms: seq<IpPermission>): (r: Outcome<seq<seq<string>>>)
    ensures r.Ok? || r == Panic(NilDereference)
  {
    if |perms| == 0 then Ok([])
    else match GroupRows(perms[..|perms| - 1])
      case Ok(rows) =>
        if Renderable(perms[|perms| - 1]) then Ok(rows + PermissionRows(perms[|perms| - 1]))
        else Panic(NilDereference)
      case other => other
  }

  predicate InboundRows(rows: seq<seq<string>>)
  {
    forall i :: 0 <= i < |rows| ==> |rows[i]| == 5 && rows[i][0] == InboundType
  }

  lemma {:induction false} RangeRowsShape(protocol: string, portRange: string, ranges: seq<IpRange>)
    requires RangesSet(ranges)
    ensures |RangeRows(protocol, portRange, ranges)| == |ranges|
    ensures InboundRows(RangeRows(protocol, portRange, ranges))
    ensures forall j :: 0 <= j < |ranges| ==>
      RangeRows(protocol, portRange, ranges)[j] == [InboundType, protocol, portRange, ranges[j].cidrIp.value, ranges[j].description.value]
  {
    if |ranges| > 0 {
      RangeRowsShape(protocol, portRange, ranges[..|ranges| - 1]);
    }
  }

  lemma {:induction false} PairRowsShape(protocol: string, portRange: string, pairs: seq<GroupPair>)
    requires PairsSet(pairs)
    ensures |PairRows(protocol, portRange, pairs)| == |pairs|
    ensures InboundRows(PairRows(protocol, portRange, pairs))
    ensures forall j :: 0 <= j < |pairs| ==>
      PairRows(protocol, portRange, pairs)[j] == [InboundType, protocol, portRange, pairs[j].groupId.value, pairs[j].description.value]
  {
    if |pairs| > 0 {
      PairRowsShape(protocol, portRange, pairs[..|pairs| - 1]);
    }
  }

  /** The rows of a group whose rules all render: every row has the five
      columns and is "Inbound", and there is one row per IP range and
      group pair. */
  lemma {:induction false} GroupRowsShape(perms: seq<IpPermission>)
    requires forall i :: 0 <= i < |perms| ==> Renderable(perms[i])
    ensures GroupRows(perms).Ok?
    ensures |GroupRows(perms).value| == RowCount(perms)
    ensures InboundRows(GroupRows(perms).value)
  {
    if |perms| > 0 {
      var p := perms[|perms| - 1];
      GroupRowsShape(perms[..|perms| - 1]);
      var (protocol, portRange) := ProtocolColumns(p).value;
      RangeRowsShape(protocol, portRange, p.ipRanges);
      PairRowsShape(protocol, portRange, p.groupPairs);
    }
  }

  function RowCount(perms: seq<IpPermission>): nat
  {
    if |perms| == 0 then 0
    else RowCount(perms[..|perms| - 1]) + |perms[|perms| - 1].ipRanges| + |perms[|perms| - 1].groupPairs|
  }

  /** Rule `k`'s rows sit in the table right after the rows of the rules
      before it: its ranges, then its pairs, in the order listed. */
  lemma {:induction false} GroupRowsRule(perms: seq<IpPermission>, k: nat)
    requires forall i :: 0 <= i < |perms| ==> Renderable(perms[i])
    requires k < |perms|
    ensures GroupRows(perms).Ok?
    ensures RowCount(perms[..k]) + |PermissionRows(perms[k])| <= |GroupRows(perms).value|
    ensures GroupRows(perms).value[RowCount(perms[..k])..RowCount(perms[..k]) + |PermissionRows(perms[k])|]
      == PermissionRows(perms[k])
  {
    var last := |perms| - 1;
    var init := perms[..last];
    GroupRowsShape(init);
    var rows := GroupRows(init).value;
    assert GroupRows(perms).value == rows + PermissionRows(perms[last]);
    if k == last {
      assert perms[..k] == init;
    } else {
      assert init[..k] == perms[..k];
      assert init[k] == perms[k];
      GroupRowsRule(init, k);
    }
  }

  /** A rule with a nil protocol, port, CIDR, group id or description
      makes the whole table panic. */
  lemma {:induction false} UnrenderableRulePanics(perms: seq<IpPermission>, k: nat)
    requires k < |perms| && !Renderable(perms[k])
    ensures GroupRows(perms) == Panic(NilDereference)
  {
    var last := |perms| - 1;
    if k < last {
      assert perms[..last][k] == perms[k];
      UnrenderableRulePanics(perms[..last], k);
    }
  }

  /** The first inner loop: one row per IP range, or a nil dereference at
      the first range without a CIDR or a description. */
  method AppendRangeRows(rows0: seq<seq<string>>, protocol: string, portRange: string, ranges: seq<IpRange>)
    returns (rows: Outcome<seq<seq<string>>>)
    ensures RangesSet(ranges) ==> rows == Ok(rows0 + RangeRows(protocol, portRange, ranges))
    ensures !RangesSet(ranges) ==> rows == Panic(NilDereference)
  {
    var acc := rows0;
    var i := 0;
    while i < |ranges|
      invariant 0 <= i <= |ranges|
      invariant RangesSet(ranges[..i])
      invariant acc == rows0 + RangeRows(protocol, portRange, ranges[..i])
    {
      assert ranges[..i + 1][..i] == ranges[..i];
      var cidrObj := ranges[i];
      if cidrObj.cidrIp.None? || cidrObj.description.None? {
        return Panic(NilDereference);
      }
      acc := acc + [[InboundType, protocol, portRange, cidrObj.cidrIp.value, cidrObj.description.value]];
      i := i + 1;
    }
    assert ranges[..i] == ranges;
    rows := Ok(acc);
  }

  /** The second inner loop: one row per group pair, or a nil dereference
      at the first pair without a group id or a description. */
  method AppendPairRows(rows0: seq<seq<string>>, protocol: string, portRange: string, pairs: seq<GroupPair>)
    returns (rows: Outcome<seq<seq<string>>>)
    ensures PairsSet(pairs) ==> rows == Ok(rows0 + PairRows(protocol, portRange, pairs))
    ensures !PairsSet(pairs) ==> rows == Panic(NilDereference)
  {
    var acc := rows0;
    var i := 0;
    while i < |pairs|
      invariant 0 <= i <= |pairs|
      invariant PairsSet(pairs[..i])
      invariant acc == rows0 + PairRows(protocol, portRange, pairs[..i])
    {
      assert pairs[..i + 1][..i] == pairs[..i];
      var pair := pairs[i];
      if pair.groupId.None? || pair.description.None? {
        return Panic(NilDereference);
      }
      acc := acc + [[InboundType, protocol, portRange, pair.groupId.value, pair.description.value]];
      i := i + 1;
    }
    assert pairs[..i] == pairs;
    rows := Ok(acc);
  }

  /** The rows of one rule, as the two inner loops append them. */
  method AppendPermissionRows(rows0: seq<seq<string>>, p: IpPermission) returns (rows: Outcome<seq<seq<string>>>)
    ensures Renderable(p) ==> rows == Ok(rows0 + PermissionRows(p))
    ensures !Renderable(p) ==> rows == Panic(NilDereference)
  {
    var protocol := ProtocolColumns(p);
    if protocol.None? {
      return Panic(NilDereference);
    }
    var (ipProtocol, portRange) := protocol.value;
    rows := AppendRangeRows(rows0, ipProtocol, portRange, p.ipRanges);
    if !rows.Ok? {
      return;
    }
    var mid := rows.value;
    rows := AppendPairRows(mid, ipProtocol, portRange, p.groupPairs);
    if rows.Ok? {
      assert rows.value == rows0 + PermissionRows(p);
    }
  }

  /** `_print_security_group_info`: the header is Type, Protocol, Port
      Range, Destination, Description; the caption (the group name) is
      shown by the table printer. */
  method SecurityGroupRows(perms: seq<IpPermission>) returns (rows: Outcome<seq<seq<string>>>)
    ensures rows == GroupRows(perms)
  {
    var acc: seq<seq<string>> := [];
    var i := 0;
    while i < |perms|
      invariant 0 <= i <= |perms|
      invariant GroupRows(perms[..i]) == Ok(acc)
    {
      assert perms[..i + 1][..i] == perms[..i];
      var next := AppendPermissionRows(acc, perms[i]);
      if !next.Ok? {
        rows := next;
        UnrenderableRulePanics(perms, i);
        return;
      }
      acc := next.value;
      i := i + 1;
    }
    assert perms[..i] == perms;
    rows := Ok(acc);
  }
}
