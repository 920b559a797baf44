/** cmd/kubenx/cmd/cluster_init.go: which VPC and subnets still need the
    Kubernetes tags, the order of the steps of `_cluster_initalization`,
    and the meaning of the OIDC result. The AWS calls are inputs: the
    subnets and VPC tags they describe, the error of each CreateTags call,
    and the OIDC result code. */
module ClusterInit {

  import opened Wrappers
  import opened GoStrings
  import opened Ec2

  datatype Subnet = Subnet(subnetId: string, mapPublicIpOnLaunch: bool, tags: seq<Tag>)

  /** The three flags of the tag scan of one subnet. */
  datatype TagScan = TagScan(clusterNameSetup: bool, elbTypeSetup: bool, isFilteredSubnet: bool)

  predicate IsClusterTag(t: Tag, cluster: string)
  {
    t.key == ClusterTagKey(cluster) && t.value == SharedValue
  }

  predicate IsElbTag(t: Tag, elbKey: string)
  {
    t.key == elbKey && t.value == "1"
  }

  /** A `Name` tag that starts with "db". */
  predicate IsDbNameTag(t: Tag)
  {
    t.key == "Name" && HasPrefix(t.value, "db")
  }

  /** The flags after scanning `tags` in order; the scan stops right after
      the first db `Name` tag. */
  function ScanTags(tags: seq<Tag>, cluster: string, elbKey: string): (r: TagScan)
    ensures r.isFilteredSubnet ==> exists i :: 0 <= i < |tags| && IsDbNameTag(tags[i])
    ensures r.clusterNameSetup ==> exists i :: 0 <= i < |tags| && IsClusterTag(tags[i], cluster)
    ensures r.elbTypeSetup ==> exists i :: 0 <= i < |tags| && IsElbTag(tags[i], elbKey)
  {
    if |tags| == 0 then TagScan(false, false, false)
    else
      var t := tags[0];
      if IsDbNameTag(t) then TagScan(IsClusterTag(t, cluster), IsElbTag(t, elbKey), true)
      else
        var rest := ScanTags(tags[1..], cluster, elbKey);
        assert forall i :: 0 <= i < |tags| - 1 ==> tags[1..][i] == tags[i + 1];
        TagScan(IsClusterTag(t, cluster) || rest.clusterNameSetup,
                IsElbTag(t, elbKey) || rest.elbTypeSetup, rest.isFilteredSubnet)
  }

  /** The tag loop of one subnet (the public and the private branch differ
      only in `elbKey`). */
  method ScanSubnetTags(tags: seq<Tag>, cluster: string, elbKey: string)
    returns (clusterNameSetup: bool, elbTypeSetup: bool, isFilteredSubnet: bool)
    ensures TagScan(clusterNameSetup, elbTypeSetup, isFilteredSubnet) == ScanTags(tags, cluster, elbKey)
  {
    clusterNameSetup, elbTypeSetup, isFilteredSubnet := false, false, false;
    var i := 0;
    while i < |tags|
      invariant 0 <= i <= |tags|
      invariant !isFilteredSubnet
      invariant var rest := ScanTags(tags[i..], cluster, elbKey);
        ScanTags(tags, cluster, elbKey)
          == TagScan(clusterNameSetup || rest.clusterNameSetup, elbTypeSetup || rest.elbTypeSetup, rest.isFilteredSubnet)
    {
      assert tags[i..][1..] == tags[i + 1..];
      var tag := tags[i];
      if tag.key == ClusterTagKey(cluster) && tag.value == SharedValue {
        clusterNameSetup := true;
      }
      if tag.key == elbKey && tag.value == "1" {
        elbTypeSetup := true;
      }
      if tag.key == "Name" && HasPrefix(tag.value, "db") {
        isFilteredSubnet := true;
        break;
      }
      i := i + 1;
    }
  }

  /** Without a db `Name` tag the scan visits every tag: each flag says
      whether such a tag exists. A db `Name` tag anywhere filters the subnet. */
  lemma {:induction false} ScanTagsMeaning(tags: seq<Tag>, cluster: string, elbKey: string)
    ensures ScanTags(tags, cluster, elbKey).isFilteredSubnet <==> exists i :: 0 <= i < |tags| && IsDbNameTag(tags[i])
    ensures !ScanTags(tags, cluster, elbKey).isFilteredSubnet ==>
      (ScanTags(tags, cluster, elbKey).clusterNameSetup <==> exists i :: 0 <= i < |tags| && IsClusterTag(tags[i], cluster))
    ensures !ScanTags(tags, cluster, elbKey).isFilteredSubnet ==>
      (ScanTags(tags, cluster, elbKey).elbTypeSetup <==> exists i :: 0 <= i < |tags| && IsElbTag(tags[i], elbKey))
  {
    if |tags| > 0 {
      ScanTagsMeaning(tags[1..], cluster, elbKey);
      assert forall i :: 0 < i < |tags| ==> tags[i] == tags[1..][i - 1];
      assert forall i :: 0 <= i < |tags| - 1 ==> tags[1..][i] == tags[i + 1];
    }
  }

  /** The tags after the first db `Name` tag are never examined. */
  lemma {:induction false} ScanStopsAtDbName(pre: seq<Tag>, t: Tag, post: seq<Tag>, cluster: string, elbKey: string)
    requires IsDbNameTag(t)
    ensures ScanTags(pre + [t] + post, cluster, elbKey) == ScanTags(pre + [t], cluster, elbKey)
  {
    if |pre| > 0 {
      assert (pre + [t] + post)[1..] == pre[1..] + [t] + post;
      assert (pre + [t])[1..] == pre[1..] + [t];
      ScanStopsAtDbName(pre[1..], t, post, cluster, elbKey);
    } else {
      assert pre + [t] + post == [t] + post;
      assert pre + [t] == [t];
    }
  }

  /** A subnet still needs tags: it is not filtered and it lacks the
      cluster tag or the load-balancer role tag of its kind. */
  predicate Selected(s: Subnet, cluster: string)
  {
    var scan := ScanTags(s.tags, cluster, ElbKey(s.mapPublicIpOnLaunch));
    !(scan.elbTypeSetup && scan.clusterNameSetup) && !scan.isFilteredSubnet
  }

  /** The IDs of the selected subnets of one kind, in subnet order. */
  function SelectedIds(subnets: seq<Subnet>, cluster: string, public: bool): (r: seq<string>)
    ensures |r| <= |subnets|
  {
    if |subnets| == 0 then []
    else
      var s := subnets[|subnets| - 1];
      SelectedIds(subnets[..|subnets| - 1], cluster, public)
        + (if s.mapPublicIpOnLaunch == public && Selected(s, cluster) then [s.subnetId] else [])
  }

  /** The subnet loop of `_cluster_initalization`. */
  method SelectSubnets(subnets: seq<Subnet>, cluster: string) returns (publicSubnetIds: seq<string>, privateSubnetIds: seq<string>)
    ensures publicSubnetIds == SelectedIds(subnets, cluster, true)
    ensures privateSubnetIds == SelectedIds(subnets, cluster, false)
  {
    publicSubnetIds, privateSubnetIds := [], [];
    var i := 0;
    while i < |subnets|
      invariant 0 <= i <= |subnets|
      invariant publicSubnetIds == SelectedIds(subnets[..i], cluster, true)
      invariant privateSubnetIds == SelectedIds(subnets[..i], cluster, false)
    {
      assert subnets[..i + 1][..i] == subnets[..i];
      var subnet := subnets[i];
      if subnet.mapPublicIpOnLaunch {
        var clusterNameSetup, elbTypeSetup, isFilteredSubnet := ScanSubnetTags(subnet.tags, cluster, PublicElbKey);
        if !(elbTypeSetup && clusterNameSetup) && !isFilteredSubnet {
          publicSubnetIds := publicSubnetIds + [subnet.subnetId];
        }
      } else {
        var clusterNameSetup, elbTypeSetup, isFilteredSubnet := ScanSubnetTags(subnet.tags, cluster, InternalElbKey);
        if !(elbTypeSetup && clusterNameSetup) && !isFilteredSubnet {
          privateSubnetIds := privateSubnetIds + [subnet.subnetId];
        }
      }
      i := i + 1;
    }
    assert subnets[..i] == subnets;
  }

  /** An ID is in the list of a kind exactly when a selected subnet of that
      kind carries it. */
  lemma {:induction false} SelectedIdsMembers(subnets: seq<Subnet>, cluster: string, public: bool, id: string)
    ensures id in SelectedIds(subnets, cluster, public)
        <==> exists i :: 0 <= i < |subnets| && subnets[i].subnetId == id
               && subnets[i].mapPublicIpOnLaunch == public && Selected(subnets[i], cluster)
  {
    if |subnets| > 0 {
      var p := subnets[..|subnets| - 1];
      SelectedIdsMembers(p, cluster, public, id);
      assert forall i :: 0 <= i < |p| ==> p[i] == subnets[i];
    }
  }

  /** Each subnet lands in at most one list: together the lists are no
      longer than the subnet list. */
  lemma {:induction false} SelectedIdsSplit(subnets: seq<Subnet>, cluster: string)
    ensures |SelectedIds(subnets, cluster, true)| + |SelectedIds(subnets, cluster, false)| <= |subnets|
  {
    if |subnets| > 0 {
      SelectedIdsSplit(subnets[..|subnets| - 1], cluster);
    }
  }

  /** The tags of a subnet after its list has been tagged. */
  function TaggedSubnet(s: Subnet, cluster: string): Subnet
  {
    var subnetType := if s.mapPublicIpOnLaunch then "public" else "private";
    s.(tags := ApplyTags(s.tags, SubnetTags(cluster, subnetType)))
  }

  /** Tagging a subnet with the tag set of its kind makes it unselected:
      a re-run of cluster initialisation leaves it alone. */
  lemma TaggingDeselects(s: Subnet, cluster: string)
    ensures !Selected(TaggedSubnet(s, cluster), cluster)
  {
    var elbKey := ElbKey(s.mapPublicIpOnLaunch);
    var subnetType := if s.mapPublicIpOnLaunch then "public" else "private";
    var added := SubnetTags(cluster, subnetType);
    var tagged := ApplyTags(s.tags, added);
    assert (subnetType == "public") == s.mapPublicIpOnLaunch;
    ScanTagsMeaning(tagged, cluster, elbKey);
    var ct := Tag(ClusterTagKey(cluster), SharedValue);
    var et := Tag(elbKey, "1");
    assert ct in tagged && et in tagged;
    var ci :| 0 <= ci < |tagged| && tagged[ci] == ct;
    var ei :| 0 <= ei < |tagged| && tagged[ei] == et;
    assert IsClusterTag(tagged[ci], cluster);
    assert IsElbTag(tagged[ei], elbKey);
  }

  /** The VPC check: some VPC tag is the cluster tag with value "shared". */
  predicate HasVpcTag(tags: seq<Tag>, cluster: string)
  {
    exists i :: 0 <= i < |tags| && IsClusterTag(tags[i], cluster)
  }

  /** The VPC tag loop (no `break`: every tag is examined). */
  method CheckVpcTag(tags: seq<Tag>, cluster: string) returns (hasVPCTag: bool)
    ensures hasVPCTag == HasVpcTag(tags, cluster)
  {
    hasVPCTag := false;
    var i := 0;
    while i < |tags|
      invariant 0 <= i <= |tags|
      invariant hasVPCTag <==> exists j :: 0 <= j < i && IsClusterTag(tags[j], cluster)
    {
      if tags[i].key == ClusterTagKey(cluster) && tags[i].value == SharedValue {
        hasVPCTag := true;
      }
      i := i + 1;
    }
  }

  /** Tagging the VPC makes the check hold. */
  lemma VpcTaggingSatisfiesCheck(tags: seq<Tag>, cluster: string)
    ensures HasVpcTag(ApplyTags(tags, VpcTags(cluster)), cluster)
  {
    var tagged := ApplyTags(tags, VpcTags(cluster));
    var ct := Tag(ClusterTagKey(cluster), SharedValue);
    assert ct in tagged;
    var ci :| 0 <= ci < |tagged| && tagged[ci] == ct;
    assert IsClusterTag(tagged[ci], cluster);
  }

  // ------------------------------------------------------------ OIDC

  /** The result codes of `_create_openID_connector`. */
  const AlreadyExists: int := 2
  const NewlyCreated: int := 1
  const CreationFailure: int := 0

  /** Step 4: the notice for the OIDC result, or the exit with its error. */
  function OidcStep(ret: int, err: string): (r: Outcome<string>)
    ensures r.Ok? || r.Exit?
    ensures ret == AlreadyExists <==> r == Ok("Step 4. OIDC Provider already exists")
    ensures ret == NewlyCreated <==> r == Ok("Step 4. New OIDC Provider is successfully created")
    ensures ret != AlreadyExists && ret != NewlyCreated <==> r == Exit(err)
  {
    if ret == AlreadyExists then Ok("Step 4. OIDC Provider already exists")
    else if ret == NewlyCreated then Ok("Step 4. New OIDC Provider is successfully created")
    else Exit(err)
  }

  // ------------------------------------------------------- the command

  /** The `clusterInitCmd` argument check: at most one cluster name. */
  function ClusterNameArg(args: seq<string>): (r: Outcome<string>)
    ensures |args| > 1 <==> r == Exit("Too many Arguments")
    ensures |args| == 0 ==> r == Ok("")
    ensures |args| == 1 ==> r == Ok(args[0])
  {
    if |args| > 1 then Exit("Too many Arguments")
    else if |args| == 0 then Ok("")
    else Ok(args[0])
  }

  /** An observable step: a notice line or a CreateTags call. */
  datatype InitStep = Notice(text: string) | TagCall(request: CreateTagsRequest)

  /** The AWS answers `_cluster_initalization` works from. */
  datatype Cloud = Cloud(
    chosenCluster: string,
    vpcId: string,
    subnets: seq<Subnet>,
    vpcTags: seq<Tag>,
    tagError: CreateTagsRequest -> Option<string>,
    oidcResult: int,
    oidcError: string)

  /** The CreateTags calls among the steps, in order. */
  function TagCalls(steps: seq<InitStep>): seq<CreateTagsRequest>
  {
    if |steps| == 0 then []
    else TagCalls(steps[..|steps| - 1]) + (if steps[|steps| - 1].TagCall? then [steps[|steps| - 1].request] else [])
  }

  lemma {:induction false} TagCallsAppend(a: seq<InitStep>, b: seq<InitStep>)
    ensures TagCalls(a + b) == TagCalls(a) + TagCalls(b)
  {
    if |b| > 0 {
      assert (a + b)[..|a + b| - 1] == a + b[..|b| - 1];
      TagCallsAppend(a, b[..|b| - 1]);
    } else {
      assert a + b == a;
    }
  }

  /** The steps of a run and how it ends. */
  datatype InitRun = InitRun(steps: seq<InitStep>, outcome: Outcome<()>)

  /** Run `second` after `first` unless `first` has exited. */
  function Then(first: InitRun, second: InitRun): (r: InitRun)
    ensures first.outcome.Ok? ==> TagCalls(r.steps) == TagCalls(first.steps) + TagCalls(second.steps)
    ensures !first.outcome.Ok? ==> r == first
    ensures |first.steps| > 0 ==> |r.steps| > 0 && r.steps[0] == first.steps[0]
  {
    TagCallsAppend(first.steps, second.steps);
    if first.outcome.Ok? then InitRun(first.steps + second.steps, second.outcome) else first
  }

  /** A stage that either reports that nothing is needed or announces and
      makes one CreateTags call, exiting when the call fails. */
  function TagStage(needed: bool, req: CreateTagsRequest, cloud: Cloud, neededText: string, doneText: string): (r: InitRun)
    ensures TagCalls(r.steps) == (if needed then [req] else [])
    ensures !needed ==> r.outcome == Ok(())
    ensures |r.steps| > 0 && r.steps[0] == Notice(if needed then neededText else doneText)
    ensures needed ==> r.outcome == TagCallOutcome(Command, cloud.tagError(req))
  {
    if needed then
      var steps := [Notice(neededText), TagCall(req)];
      assert steps[..1] == [Notice(neededText)];
      assert steps[..1][..0] == [];
      assert TagCalls(steps[..1]) == [];
      InitRun(steps, TagCallOutcome(Command, cloud.tagError(req)))
    else
      assert [Notice(doneText)][..0] == [];
      InitRun([Notice(doneText)], Ok(()))
  }

  const NoSubnetMessage := "No subnet exists, please checkout out VPC"

  /** The cluster name given, or the one chosen interactively. */
  function Cluster(clusterName: string, cloud: Cloud): string
  {
    if |clusterName| != 0 then clusterName else cloud.chosenCluster
  }

  /** `_cluster_initalization` from the subnet check on, given the VPC
      check and the two subnet lists. */
  function InitFlow(clusterName: string, cloud: Cloud, hasVPCTag: bool, publicIds: seq<string>, privateIds: seq<string>): (r: InitRun)
    ensures |cloud.subnets| == 0 ==> r == InitRun([], Exit(NoSubnetMessage))
    ensures |cloud.subnets| > 0 ==>
      |r.steps| > 0 && r.steps[0] == Notice(if hasVPCTag then VpcDoneText else VpcNeededText)
  {
    var cluster := Cluster(clusterName, cloud);
    if |cloud.subnets| == 0 then InitRun([], Exit(NoSubnetMessage))
    else
      var oidc := OidcStep(cloud.oidcResult, cloud.oidcError);
      Then(VpcStage(cluster, cloud, hasVPCTag),
      Then(PublicStage(cluster, cloud, publicIds),
      Then(PrivateStage(cluster, cloud, privateIds),
      OidcRun(oidc))))
  }

  const VpcNeededText := "Step 1. VPC Tag needs to be updated"
  const VpcDoneText := "Step 1. VPC Tag is already updated"

  /** Step 1: tag the VPC unless the check found the tag. */
  function VpcStage(cluster: string, cloud: Cloud, hasVPCTag: bool): (r: InitRun)
    ensures TagCalls(r.steps) == (if hasVPCTag then [] else [VpcTagRequest(cloud.vpcId, cluster)])
    ensures hasVPCTag ==> r.outcome == Ok(())
    ensures !hasVPCTag ==> r.outcome == TagCallOutcome(Command, cloud.tagError(VpcTagRequest(cloud.vpcId, cluster)))
    ensures |r.steps| > 0 && r.steps[0] == Notice(if hasVPCTag then VpcDoneText else VpcNeededText)
  {
    TagStage(!hasVPCTag, VpcTagRequest(cloud.vpcId, cluster), cloud, VpcNeededText, VpcDoneText)
  }

  /** Step 2: tag the public subnets when there are any to tag. */
  function PublicStage(cluster: string, cloud: Cloud, publicIds: seq<string>): (r: InitRun)
    ensures TagCalls(r.steps) == (if |publicIds| > 0 then [SubnetTagRequest(publicIds, cluster, "public")] else [])
  {
    TagStage(|publicIds| > 0, SubnetTagRequest(publicIds, cluster, "public"), cloud,
      "Step 2. Tags for Public Subnet needs to be updated", "Step 2. Tags for Public Subnet is already updated")
  }

  /** Step 3: tag the private subnets when there are any to tag. */
  function PrivateStage(cluster: string, cloud: Cloud, privateIds: seq<string>): (r: InitRun)
    ensures TagCalls(r.steps) == (if |privateIds| > 0 then [SubnetTagRequest(privateIds, cluster, "private")] else [])
  {
    TagStage(|privateIds| > 0, SubnetTagRequest(privateIds, cluster, "private"), cloud,
      "Step 3. Tags for Private Subnet needs to be updated", "Step 3. Tags for Private Subnet is already updated")
  }

  /** Step 4 as a stage: the notice, or the exit without a notice. */
  function OidcRun(oidc: Outcome<string>): (r: InitRun)
    requires oidc.Ok? || oidc.Exit?
    ensures r.outcome.Ok? <==> oidc.Ok?
    ensures TagCalls(r.steps) == []
  {
    if oidc.Ok? then
      assert [Notice(oidc.value)][..0] == [];
      InitRun([Notice(oidc.value)], Ok(()))
    else InitRun([], Exit(oidc.message))
  }

  /** Three stages and a last one that all complete: their CreateTags calls
      in order. */
  lemma ThenThree(s1: InitRun, s2: InitRun, s3: InitRun, last: InitRun)
    requires Then(s1, Then(s2, Then(s3, last))).outcome.Ok?
    ensures s1.outcome.Ok? && s2.outcome.Ok? && s3.outcome.Ok? && last.outcome.Ok?
    ensures TagCalls(Then(s1, Then(s2, Then(s3, last))).steps)
         == TagCalls(s1.steps) + TagCalls(s2.steps) + TagCalls(s3.steps) + TagCalls(last.steps)
  {
  }

  /** The description printed before anything is looked up: a title, the
      four step names and a blank line. */
  const Banner: seq<InitStep> := [
    Notice("******* Steps for initialization ********"), Notice("Step 1. Tag setup for VPC"),
    Notice("Step 2. Tag setup for public subnet"), Notice("Step 3. Tag setup for private subnet"),
    Notice("Step 4. Create Open ID Connector"), Notice("")]

  /** `_cluster_initalization(clusterName)`: after the banner, the VPC tag
      loop and the subnet loop decide the stages. */
  method ClusterInitialization(clusterName: string, cloud: Cloud) returns (run: InitRun)
    ensures var cluster := Cluster(clusterName, cloud);
      var flow := InitFlow(clusterName, cloud, HasVpcTag(cloud.vpcTags, cluster),
                           SelectedIds(cloud.subnets, cluster, true), SelectedIds(cloud.subnets, cluster, false));
      run == InitRun(Banner + flow.steps, flow.outcome) && TagCalls(run.steps) == TagCalls(flow.steps)
  {
    var steps := Banner;
    var cluster := Cluster(clusterName, cloud);
    if |cloud.subnets| == 0 {
      ghost var flow := InitFlow(clusterName, cloud, HasVpcTag(cloud.vpcTags, cluster), [], []);
      assert flow.steps == [];
      AppendNothing(steps);
      BannerThen([]);
      return InitRun(steps, Exit(NoSubnetMessage));
    }
    var hasVPCTag := CheckVpcTag(cloud.vpcTags, cluster);
    var publicSubnetIds, privateSubnetIds := SelectSubnets(cloud.subnets, cluster);
    var flow := InitFlow(clusterName, cloud, hasVPCTag, publicSubnetIds, privateSubnetIds);
    run := InitRun(steps + flow.steps, flow.outcome);
    BannerThen(flow.steps);
  }

  /** The banner adds no CreateTags call to the steps after it. */
  lemma BannerThen(rest: seq<InitStep>)
    ensures TagCalls(Banner + rest) == TagCalls(rest)
  {
    NoticesHaveNoTags(Banner);
    TagCallsAppend(Banner, rest);
  }

  /** Steps that are all notices make no CreateTags call. */
  lemma {:induction false} NoticesHaveNoTags(steps: seq<InitStep>)
    requires forall i :: 0 <= i < |steps| ==> steps[i].Notice?
    ensures TagCalls(steps) == []
  {
    if |steps| > 0 {
      NoticesHaveNoTags(steps[..|steps| - 1]);
    }
  }

  /** An empty subnet list exits before any tag is written. */
  lemma NoSubnetsNoTags(clusterName: string, cloud: Cloud, hasVPCTag: bool, publicIds: seq<string>, privateIds: seq<string>)
    requires |cloud.subnets| == 0
    ensures InitFlow(clusterName, cloud, hasVPCTag, publicIds, privateIds).steps == []
    ensures InitFlow(clusterName, cloud, hasVPCTag, publicIds, privateIds).outcome.Exit?
  {
  }

  /** A run that completes writes exactly: the VPC tag when the check
      failed, then the subnet tags for each non-empty list; and it ends
      with the OIDC notice. */
  lemma CompletedRunTags(clusterName: string, cloud: Cloud, hasVPCTag: bool, publicIds: seq<string>, privateIds: seq<string>)
    requires |cloud.subnets| > 0
    requires InitFlow(clusterName, cloud, hasVPCTag, publicIds, privateIds).outcome.Ok?
    ensures var cluster := Cluster(clusterName, cloud);
      TagCalls(InitFlow(clusterName, cloud, hasVPCTag, publicIds, privateIds).steps)
        == (if hasVPCTag then [] else [VpcTagRequest(cloud.vpcId, cluster)])
         + (if |publicIds| > 0 then [SubnetTagRequest(publicIds, cluster, "public")] else [])
         + (if |privateIds| > 0 then [SubnetTagRequest(privateIds, cluster, "private")] else [])
    ensures OidcStep(cloud.oidcResult, cloud.oidcError).Ok?
  {
    var cluster := Cluster(clusterName, cloud);
    var oidc := OidcStep(cloud.oidcResult, cloud.oidcError);
    var s1, s2, s3 := VpcStage(cluster, cloud, hasVPCTag), PublicStage(cluster, cloud, publicIds), PrivateStage(cluster, cloud, privateIds);
    ThenThree(s1, s2, s3, OidcRun(oidc));
  }

  /** A failed CreateTags call ends the run: no later tag is written. */
  lemma FailedVpcTagStops(clusterName: string, cloud: Cloud, publicIds: seq<string>, privateIds: seq<string>)
    requires |cloud.subnets| > 0
    requires cloud.tagError(VpcTagRequest(cloud.vpcId, Cluster(clusterName, cloud))).Some?
    ensures InitFlow(clusterName, cloud, false, publicIds, privateIds).outcome.Exit?
    ensures TagCalls(InitFlow(clusterName, cloud, false, publicIds, privateIds).steps)
         == [VpcTagRequest(cloud.vpcId, Cluster(clusterName, cloud))]
  {
    var cluster := Cluster(clusterName, cloud);
    var s1 := VpcStage(cluster, cloud, false);
    assert s1.outcome.Exit?;
    var oidc := OidcStep(cloud.oidcResult, cloud.oidcError);
    var rest := Then(PublicStage(cluster, cloud, publicIds),
                Then(PrivateStage(cluster, cloud, privateIds), OidcRun(oidc)));
    assert InitFlow(clusterName, cloud, false, publicIds, privateIds) == Then(s1, rest);
  }
}
