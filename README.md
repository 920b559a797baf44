# kubenx decision and formatting layer, in Dafny

kubenx is a command-line tool for Kubernetes clusters on AWS EKS. Most of
what it does goes straight to the AWS and Kubernetes SDKs. Between those
calls and the table printer sits a layer of small decisions, and this
project models that layer and proves properties of it:

- **Listing rows.** The STATUS and READY columns of a pod, a node's status
  and addresses, the label text of a node option, the inserted NAMESPACE
  column, the first five keys, the IAM role column. Also the service
  and ingress columns, and the rows of a security group's inbound rules.
- **Tunnel strings.** The port-forward path and host, recovering a node
  name from a prompt option, dropping an image's `@sha` suffix, and
  decimal conversions.
- **`cluster init`.** Which VPC and subnets still need Kubernetes tags,
  and which tags are written.
- **`config delete`.** Removing the selected contexts from a kubeconfig,
  together with the cluster and the user each one names.
- **`ssh`.** Looking up the bastion in the registry, and the order and
  addresses of the dial steps.
- **Flags.** Which registry flags are attached to which subcommand, and the
  memoised flag builder.
- **The executor.** Namespace resolution, and dropping errors when the
  context was cancelled.
- **`completion`.** The argument check and the script writes.

State the source updates in place is modelled as classes and loops:

- the kubeconfig's maps;
- the memoised flag;
- a command's flag list;
- the completion writer;
- the loops that build columns and rows.

What the SDKs return, what the user answers at a prompt and the
environment variables are ordinary inputs.

The model is organised as follows:

- One module per command file.
- `K8sRows` holds the listing logic. `pkg/runner/internal_k8s.go` and
  `cmd/kubenx/cmd/internal_k8s.go` share it, and the differences between
  the two copies are explicit parameters:
  - the runner copy adds a NAMESPACE column and stops on a namespace error;
  - the `get pod` copy adds the exit code to a terminated container's status;
  - the runner's node table has a VERSION column.
- `Ec2` models the tag sets, which `pkg/aws/ec2.go` and
  `cmd/kubenx/cmd/internal_ec2.go` both build. The only difference is how a
  failed call ends: an error in the first, a process exit in the second.
- `Utils` models `pkg/utils/utils.go`. Its `HomeDir` and `Int32ToString`
  are also the `homeDir` and `_int32_to_string` copies in
  `cmd/kubenx/cmd/common.go` (lines 42-47 and 78-80) and
  `cmd/kubenx/cmd/internal_common.go` (lines 17-22 and 42-44).
- `GoStrings` and `GoStrconv` model the parts of the Go library the
  source relies on: `strings.Join`, `strings.TrimLeft`, `strings.Split`,
  `strings.HasPrefix`, `filepath.Join` with the `filepath.Clean` it applies
  (on `/`-separated paths), `strconv.FormatInt`,
  `strconv.ParseInt`/`Atoi` (a left-to-right digit scan, as Go reads it) and
  `strconv.Quote`, which error messages use to show their input.

Go behaviours that are not ordinary returns are modelled as explicit
outcomes (`Wrappers.Outcome`):

- an `os.Exit(1)` is `Exit`;
- an index out of range, or a nil pointer dereference, is `Panic`;
- a returned error is `Err`.

## Model

| member | source | states |
|---|---|---|
| `K8sRows.FilterPairsSnoc` | pkg/runner/internal_k8s.go:267-271 | Adding a filter key appends that key's pair, if any, to the pairs of the earlier keys. |
| `K8sRows.DefaultFilterPairs` | pkg/runner/internal_k8s.go:263-271 | With the default filters, the pairs are `app`'s pair, then `env`'s pair. |
| `K8sRows.LabelPairs` | pkg/runner/internal_k8s.go:267-271 | The append loop yields one `key=value` per filter key whose label value is non-empty, in filter order, and never more pairs than filters. |
| `K8sRows.CreateLabelForOption` | pkg/runner/internal_k8s.go:263-278 | The label text is the pairs joined by `,`. It is the "No Labels for filtering" text exactly when neither `app` nor `env` has a non-empty value. |
| `K8sRows.LabelTextIsNoLabelsExactly` | pkg/runner/internal_k8s.go:273-275 | The fallback text appears if and only if both filter values are empty; no real pair can produce it. |
| `K8sRows.LabelTextBoth` | cmd/kubenx/cmd/internal_k8s.go:262-278 | When both values are present, the text is `app=<a>,env=<e>`. |
| `K8sRows.NodeOptionsCount` | cmd/kubenx/cmd/internal_k8s.go:245-256 | There is one option per node that has a Hostname address, so never more options than nodes. |
| `K8sRows.FirstHostname` | cmd/kubenx/cmd/internal_k8s.go:248-253 | The inner loop stops at the first Hostname address and returns it. |
| `K8sRows.NodeOptions` | cmd/kubenx/cmd/internal_k8s.go:245-256 | Never more options than nodes. |
| `K8sRows.GetNodeListForOption` | cmd/kubenx/cmd/internal_k8s.go:237-259 | The options, `<first hostname> (<label text>)`, come in node order, one per node with a hostname. |
| `K8sRows.GetTargetNode` | cmd/kubenx/cmd/internal_k8s.go:343-365 | A single argument is returned as given. Without options the result is the error "No node list". Otherwise it is the part of the answer before its first space. |
| `K8sRows.TargetNodeRecoversAddress` | pkg/runner/internal_k8s.go:252 | Choosing the option built for an address that has no space gives back exactly that address. |
| `K8sRows.PortForwardPath` | pkg/runner/internal_k8s.go:325-326 | The path is `/api/v1/namespaces/<ns>/pods/<name>/portforward` (the format itself; what it means is stated by `PortForwardPathFields` and `PortForwardPathInjective`). |
| `K8sRows.PortForwardPathFields` | pkg/runner/internal_k8s.go:325-326 | The namespace, when it has no `/`, is the field after `/api/v1/namespaces/`. The pod name is the text between `/pods/` and the closing `/portforward`. |
| `K8sRows.PortForwardPathInjective` | pkg/runner/internal_k8s.go:325-326 | Namespaces hold no `/`, so the path names one pod: equal paths have the same namespace and pod name. |
| `K8sRows.PortForwardHost` | pkg/runner/internal_k8s.go:327 | The host is the longest suffix of the REST host whose first character is not one of `h t p s : /`. Every dropped character is in that set. |
| `K8sRows.PortForwardHostLosesLetters` | cmd/kubenx/cmd/internal_k8s.go:327 | After `https://`, any further leading letters from the cutset are dropped too (so `https://stage.x` loses `sta`). |
| `GoStrings.TrimLeft` | pkg/runner/internal_k8s.go:327 | Go's `TrimLeft` removes the longest prefix made only of characters in the cutset, and nothing else. |
| `GoStrings.TrimLeftDropsPrefix` | cmd/kubenx/cmd/internal_k8s.go:327 | A prefix made only of cutset characters makes no difference to the result. |
| `GoStrings.TrimLeftIdempotent` | pkg/runner/internal_k8s.go:325-327 | Trimming twice is trimming once. |
| `K8sRows.CombineNamespace` | pkg/runner/internal_k8s.go:646-666 | A non-empty namespace leaves the row unchanged. An empty one puts `NAMESPACE` (header) or the item's namespace (row) in front, so the length grows by one. |
| `K8sRows.FirstFive` | cmd/kubenx/cmd/internal_k8s.go:384-391 | The shown keys are the first `min(5, n)` names, in order. |
| `K8sRows.IamRoleOf` | cmd/kubenx/cmd/internal_k8s.go:393-398 | The IAM role column either succeeds or panics; it never exits or returns an error. |
| `K8sRows.IamRole` | cmd/kubenx/cmd/internal_k8s.go:393-398 | The annotation loop computes `IamRoleOf`. |
| `K8sRows.IamRoleOfMap` | cmd/kubenx/cmd/internal_k8s.go:393-398 | When the role annotation is present, the column is the second `/`-field of its value. A value without `/` panics with index out of range. |
| `K8sRows.IamRoleAbsent` | cmd/kubenx/cmd/internal_k8s.go:369-398 | Without the role annotation, the column is empty. |
| `K8sRows.IamRoleOfArn` | cmd/kubenx/cmd/internal_k8s.go:395 | For `<prefix>/<name>` the column is `<name>`. |
| `GoStrings.SecondField` | cmd/kubenx/cmd/internal_k8s.go:395 | `strings.Split(v, "/")[1]` exists exactly when `v` contains `/`, and it has no `/`. |
| `GoStrings.SecondFieldBetween` | cmd/kubenx/cmd/internal_k8s.go:395 | For `a/b` where `a` has no `/`, the second field is `b` up to its first `/`: the text between the first and the second separator. |
| `K8sRows.FirstWaiting` | pkg/runner/internal_k8s.go:613-636 | Gives the index of the first container in the Waiting state, or the length of the list when there is none. |
| `K8sRows.Summary` | pkg/runner/internal_k8s.go:613-636 | Never more containers counted than there are, and at least one once there are any. |
| `K8sRows.ContainerSummary` | pkg/runner/internal_k8s.go:613-636 | The counting loop, with its `break`, computes the ready count, total count and status of `Summary`. |
| `K8sRows.CountReadyBound` | cmd/kubenx/cmd/internal_k8s.go:571-594 | Never more ready containers than containers. |
| `K8sRows.SummaryBounds` | pkg/runner/internal_k8s.go:613-636 | The counts satisfy `ready ≤ total ≤ containers`. The scan stops just after the first Waiting container. |
| `K8sRows.SummaryWaiting` | pkg/runner/internal_k8s.go:613-636 | The first Waiting container's reason is the status, and the containers after it are not counted. |
| `K8sRows.LastShownIsLast` | cmd/kubenx/cmd/internal_k8s.go:571-594 | Without a Waiting container, the status comes from the last container that is Running or Terminated. |
| `K8sRows.LastShownPhase` | pkg/runner/internal_k8s.go:613-636 | When no container is Running or Terminated, the status is the pod's phase. |
| `K8sRows.TerminatedWinsOverRunning` | pkg/runner/internal_k8s.go:613-636 | A container that reports both Running and Terminated shows as terminated. |
| `K8sRows.ScanAddresses` | cmd/kubenx/cmd/internal_k8s.go:633-641 | The address loop keeps the last InternalIP and the last ExternalIP. Values absent from the list are left as they were. |
| `K8sRows.NodeStatus` | cmd/kubenx/cmd/internal_k8s.go:643-648 | The node status is the type of the last condition whose status is `True`. |
| `K8sRows.NodeRows` | cmd/kubenx/cmd/internal_k8s.go:605-655 | There is one row per node. The address variables live outside the loop, so each row carries the value left by the previous nodes. |
| `K8sRows.LastAddressOwn` | cmd/kubenx/cmd/internal_k8s.go:633-641 | The last address of a kind decides that kind's value. |
| `K8sRows.LastAddressNone` | cmd/kubenx/cmd/internal_k8s.go:633-641 | Without an address of a kind, the previous value stays. |
| `K8sRows.NodeInternalIpOwn` | cmd/kubenx/cmd/internal_k8s.go:633-641 | A node's own last InternalIP is the value in its row. |
| `K8sRows.NodeAddressCarried` | cmd/kubenx/cmd/internal_k8s.go:633-641 | A node without an address of a kind shows the previous node's value (the first such node shows `""`). |
| `K8sRows.RunnerNodeColumns` | pkg/runner/internal_k8s.go:714 | The runner's node row has eight cells, with the kubelet version as the sixth. |
| `K8sRows.CmdNodeColumns` | cmd/kubenx/cmd/internal_k8s.go:650 | The cmd node row is the runner row without the VERSION cell. |
| `K8sRows.Frame` | pkg/runner/internal_k8s.go:646-666 | The runner copy applies `combineNamespace` to the header and to every row. The cmd copy leaves them as they are. |
| `K8sRows.ServiceAccountColumns` | cmd/kubenx/cmd/internal_k8s.go:382-400 | A service account row has five cells: the name, the secret count (which parses back to the number of secrets), the shown secrets, the IAM role and the age. |
| `K8sRows.RenderServiceAccounts` | cmd/kubenx/cmd/internal_k8s.go:368-405 | Nothing is rendered exactly on an empty list (or, for the runner, a namespace error). A rendered table has one row per account with a successful IAM role. A panic comes from an account whose role annotation panics, and every account before it has a role. |
| `K8sRows.KeyedRows` | cmd/kubenx/cmd/internal_k8s.go:408-437 | One keyed row per item, in order. |
| `K8sRows.RenderSecrets` | cmd/kubenx/cmd/internal_k8s.go:408-437 | Nothing is rendered exactly on an empty list (or a namespace error). Rows are name, type, data count, first five keys and age. It never panics. |
| `K8sRows.RenderConfigMaps` | cmd/kubenx/cmd/internal_k8s.go:524-553 | Nothing is rendered exactly on an empty list (or a namespace error). The header is `Name`, `DATA COUNT`, `FIRST FIVE KEYS`, `AGE`, with NAMESPACE added by the runner. Rows are name, data count, first five keys and age. It never panics. |
| `K8sRows.RenderNamed` | cmd/kubenx/cmd/internal_k8s.go:440-521 | Roles, role bindings, cluster roles and their bindings: nothing is rendered exactly on an empty list. Otherwise the header is `Name`, `AGE` (framed by the runner) and there is one name-and-age row per item. |
| `K8sRows.PodColumns` | cmd/kubenx/cmd/internal_k8s.go:596 | A pod row has eight cells: the name first, the summary's status third and the node name seventh. |
| `K8sRows.PodRows` | cmd/kubenx/cmd/internal_k8s.go:556-601 | One row per pod, in order, given by the pod's columns. |
| `K8sRows.RenderPods` | pkg/runner/internal_k8s.go:591-643 | Nothing is rendered exactly on an empty list (or a namespace error). The pod table is framed with the NAMESPACE column by the runner. |
| `K8sRows.RenderNodes` | pkg/runner/internal_k8s.go:669-719 | Nothing is rendered exactly on an empty list. The header has eight columns with VERSION in the runner and seven without it in the command copy. Each row is the node row for the copy in use. |
| `Executor.GetNamespace` | pkg/runner/internal_k8s.go:722-745 | The namespace, or `""` and the lookup error. It agrees with the executor's resolution. |
| `Utils.RemoveSHATags` | pkg/utils/utils.go:14-20 | The result is what comes before the first `@`, or the whole image when there is no `@`. It is a prefix of the image and has no `@`. |
| `Utils.RemoveSHATagsIdempotent` | pkg/utils/utils.go:14-20 | Stripping twice is stripping once. |
| `Utils.Int32ToString` | pkg/utils/utils.go:10-12 | The decimal rendering is never empty. It starts with `-` exactly for negatives. |
| `Utils.Int32ToStringParses` | pkg/utils/utils.go:10-12 | The decimal rendering parses back to the number. For a non-negative number it is all digits. |
| `GoStrconv.ParseFormatRoundTrip` | pkg/utils/utils.go:10-12 | Parsing the decimal rendering of any 64-bit value gives the value. |
| `GoStrconv.NatToDigitsCorrect` | pkg/utils/utils.go:10-12 | The digits of a natural number are non-empty and have no leading zero, and their value is the number. |
| `GoStrconv.FormatIntShape` | cmd/kubenx/cmd/common.go:78-80 | A rendering is a non-empty run of digits, with a `-` in front exactly for negatives. |
| `GoStrconv.ScanUint` | cmd/kubenx/cmd/common.go:84 | The digit loop of `strconv.ParseUint` reads left to right. Any value it yields after reading a digit is within the unsigned 64-bit range. |
| `GoStrconv.ParseUint` | cmd/kubenx/cmd/common.go:84 | A value of `ParseUint` lies within the unsigned 64-bit range. |
| `GoStrconv.Signed` | cmd/kubenx/cmd/common.go:84 | A syntax error exactly when `ParseUint` gave one. A range error is clamped to the bound on the side of the sign. A value lies within 64-bit bounds. |
| `GoStrconv.ParseInt` | cmd/kubenx/cmd/common.go:83-90 | A parsed value lies within 64-bit bounds. A range error is clamped to a bound. The empty string is a syntax error. |
| `GoStrconv.SignSplit` | cmd/kubenx/cmd/common.go:84 | `ParseInt` takes off an optional `+` or `-` and applies `ParseUint` to the rest. |
| `GoStrconv.ScanPrefix` | cmd/kubenx/cmd/common.go:84 | While the digits read stay in range, the scan reads them all and carries their value. |
| `GoStrconv.ScanAllDigits` | cmd/kubenx/cmd/common.go:84 | Digits whose value fits in 64 unsigned bits scan to that value. |
| `GoStrconv.ScanStopsAtNonDigit` | cmd/kubenx/cmd/common.go:84 | A non-digit reached while the value is in range is a syntax error, whatever follows. |
| `GoStrconv.ScanStopsAtOverflow` | cmd/kubenx/cmd/common.go:84 | The first digit that takes the value past the unsigned range is a range error, whatever follows. |
| `GoStrconv.UintDigits` | cmd/kubenx/cmd/common.go:84 | `ParseUint` on digits gives their value when it fits, and a range error otherwise. |
| `GoStrconv.ParseIntDigits` | cmd/kubenx/cmd/common.go:84 | A sign and digits give the signed value when it fits in 64 bits, and otherwise the bound on the side of the sign. |
| `GoStrconv.UintOverflowIgnoresRest` | cmd/kubenx/cmd/common.go:84 | Digits past the unsigned range are a range error, whatever text follows them. |
| `GoStrconv.NonDigitBeforeOverflow` | cmd/kubenx/cmd/common.go:84 | A non-digit after in-range digits makes `ParseInt` a syntax error. |
| `GoStrconv.OverflowBeforeNonDigit` | cmd/kubenx/cmd/internal_common.go:48 | A number too long for 64 bits, followed by any text, is a range error clamped on the side of its sign, not a syntax error. |
| `GoStrconv.NinesThenLetter` | cmd/kubenx/cmd/internal_common.go:48 | `99999999999999999999x` is a range error with the largest 64-bit value, not a syntax error. |
| `GoStrconv.NegativeNinesThenLetter` | cmd/kubenx/cmd/internal_common.go:48 | `-99999999999999999999x` is a range error with the smallest 64-bit value. |
| `GoStrconv.QuoteChar` | cmd/kubenx/cmd/common.go:86 | `strconv.Quote` escapes a character with a backslash exactly when it is a quote, a backslash, a control character or DEL. |
| `GoStrconv.Quote` | cmd/kubenx/cmd/common.go:86 | The quoted input starts and ends with `"`. |
| `GoStrconv.QuoteRoundTrip` | cmd/kubenx/cmd/common.go:86 | Reading the escapes back gives the input, so the message shows the input exactly. |
| `GoStrconv.QuotePlain` | cmd/kubenx/cmd/common.go:86 | Printable ASCII without `"` or `\` is quoted as it stands. |
| `GoStrconv.QuoteEscapes` | cmd/kubenx/cmd/common.go:86 | In `1"` followed by a newline, the quote and the newline are escaped and the digit is not. |
| `Utils.HomeDir` | pkg/utils/utils.go:23-28 | `HOME` when it is non-empty, else `USERPROFILE`. |
| `ClusterInit.ClusterNameArg` | cmd/kubenx/cmd/cluster_init.go:30-41 | More than one argument exits. No argument means the cluster is chosen later. One argument is the name. |
| `ClusterInit.CheckVpcTag` | cmd/kubenx/cmd/cluster_init.go:87-92 | The loop sets `hasVPCTag` exactly when some VPC tag is `kubernetes.io/cluster/<c>=shared`. |
| `ClusterInit.VpcTaggingSatisfiesCheck` | cmd/kubenx/cmd/cluster_init.go:95-100 | Applying the VPC tag set makes the check succeed. |
| `ClusterInit.ScanTags` | cmd/kubenx/cmd/cluster_init.go:111-125 | Each flag is set only by a tag that is present: the cluster tag, the ELB tag of the subnet's kind, or a `Name=db…` tag. |
| `ClusterInit.ScanSubnetTags` | cmd/kubenx/cmd/cluster_init.go:112-125 | The tag loop, with its `break`, computes the three flags of `ScanTags`. |
| `ClusterInit.ScanTagsMeaning` | cmd/kubenx/cmd/cluster_init.go:111-148 | A subnet is filtered if and only if a tag is `Name=db…`. When it is not filtered, the cluster flag and the ELB flag each hold if and only if the corresponding tag is present. |
| `ClusterInit.ScanStopsAtDbName` | cmd/kubenx/cmd/cluster_init.go:121-124 | The tags after the first `Name=db…` tag are never examined. |
| `ClusterInit.SelectSubnets` | cmd/kubenx/cmd/cluster_init.go:106-151 | The loop builds the public list and the private list of selected subnet ids, in subnet order. |
| `ClusterInit.SelectedIds` | cmd/kubenx/cmd/cluster_init.go:106-151 | A list of selected ids is never longer than the subnet list. |
| `ClusterInit.SelectedIdsMembers` | cmd/kubenx/cmd/cluster_init.go:111-148 | An id is in a list if and only if some subnet of that kind (public on launch or not) with that id is selected: it lacks one of the two tags and is not filtered. |
| `ClusterInit.SelectedIdsSplit` | cmd/kubenx/cmd/cluster_init.go:106-151 | A subnet lands in at most one list, so the two lists together are no longer than the subnet list. |
| `ClusterInit.TaggingDeselects` | cmd/kubenx/cmd/internal_ec2.go:221-245 | A subnet that has received the tag set for its kind is no longer selected. |
| `ClusterInit.TagCallsAppend` | cmd/kubenx/cmd/cluster_init.go:95-167 | The tag calls of consecutive stages are concatenated. |
| `ClusterInit.Then` | cmd/kubenx/cmd/cluster_init.go:95-167 | A stage that ends the run hides the later stages. Otherwise the tag calls of both stages are kept, in order. |
| `ClusterInit.TagStage` | cmd/kubenx/cmd/cluster_init.go:154-167 | A stage that is needed writes exactly its one tag request and ends as the call does. A stage that is not needed writes nothing. |
| `ClusterInit.OidcStep` | cmd/kubenx/cmd/cluster_init.go:170-179 | `ALREADY_EXISTS` and `NEWLY_CREATED` each give their notice, and any other result exits with the error. |
| `ClusterInit.VpcStage` | cmd/kubenx/cmd/cluster_init.go:95-100 | Step 1 writes the VPC tag request exactly when the check failed, and ends as that call does. |
| `ClusterInit.PublicStage` | cmd/kubenx/cmd/cluster_init.go:153-159 | Step 2 writes the public subnet tag request exactly when the public list is not empty. |
| `ClusterInit.PrivateStage` | cmd/kubenx/cmd/cluster_init.go:161-167 | Step 3 writes the private subnet tag request exactly when the private list is not empty. |
| `ClusterInit.OidcRun` | cmd/kubenx/cmd/cluster_init.go:172-179 | Step 4 completes exactly when the OIDC result is a notice, and writes no tag. |
| `ClusterInit.ClusterInitialization` | cmd/kubenx/cmd/cluster_init.go:49-180 | The run is the banner followed by the staged flow, fed with the VPC check and the two subnet lists computed by the loops. The banner writes no tag. |
| `ClusterInit.InitFlow` | cmd/kubenx/cmd/cluster_init.go:78-179 | An empty subnet list exits with "No subnet exists" and takes no step. Otherwise the first step is step 1's notice: already updated when the VPC check passed, needs updating when it failed. |
| `ClusterInit.NoSubnetsNoTags` | cmd/kubenx/cmd/cluster_init.go:78-81 | An empty subnet list exits before any tag is written. |
| `ClusterInit.CompletedRunTags` | cmd/kubenx/cmd/cluster_init.go:95-179 | A run that completes writes the VPC tag only when the check failed, and then a subnet tag request for each non-empty list. Its OIDC step succeeded. |
| `ClusterInit.FailedVpcTagStops` | cmd/kubenx/cmd/internal_ec2.go:213-217 | A failed VPC tag call exits, and no subnet tag is written. |
| `Ec2.VpcTags` | pkg/aws/ec2.go:74-85 | The VPC tag set is the single pair `kubernetes.io/cluster/<c>=shared`. |
| `Ec2.VpcTagRequest` | cmd/kubenx/cmd/internal_ec2.go:201-212 | The request tags just the one VPC with that set. |
| `Ec2.SubnetTags` | pkg/aws/ec2.go:95-119 | A subnet tag set has two tags: the cluster tag, and `kubernetes.io/role/elb=1` for `public` or `kubernetes.io/role/internal-elb=1` for any other type. No other key occurs. |
| `Ec2.SubnetTagRequest` | cmd/kubenx/cmd/internal_ec2.go:221-245 | The request tags exactly the given subnets with that set. |
| `Ec2.TagCallOutcome` | pkg/aws/ec2.go:86-90 | A failed `CreateTags` is returned as an error by the library copy and ends the process in the command copy. Success is success in both. |
| `Ec2.WithoutKeys` | cmd/kubenx/cmd/internal_ec2.go:201-245 | The existing tags that an added tag does not overwrite. |
| `Ec2.ApplyTags` | cmd/kubenx/cmd/internal_ec2.go:201-245 | After a `CreateTags` call, the resource has the added tags and the existing tags whose keys were not written. |
| `Ec2.ProtocolColumns` | cmd/kubenx/cmd/internal_ec2.go:102-108 | Protocol `-1` gives `All Traffic` and `All`. Any other protocol gives its name and the decimal `FromPort`. A nil protocol, or a nil `FromPort` for a specific protocol, gives no columns (nil dereference). |
| `Ec2.GroupRows` | cmd/kubenx/cmd/internal_ec2.go:99-121 | Building the rows either succeeds or panics with a nil dereference. |
| `Ec2.RangeRowsShape` | cmd/kubenx/cmd/internal_ec2.go:110-114 | One row per IP range, in order: `Inbound`, the protocol, the port range, the range's CIDR and its description. |
| `Ec2.PairRowsShape` | cmd/kubenx/cmd/internal_ec2.go:116-120 | One row per group pair, in order: `Inbound`, the protocol, the port range, the pair's group id and its description. |
| `Ec2.GroupRowsShape` | cmd/kubenx/cmd/internal_ec2.go:99-121 | When every rule can be rendered, the table does not panic, has one row per IP range and group pair of all rules, and every row is a five-cell `Inbound` row. |
| `Ec2.GroupRowsRule` | cmd/kubenx/cmd/internal_ec2.go:99-121 | When every rule can be rendered, rule `k`'s rows (its ranges, then its pairs) come right after the rows of the rules before it, so the table follows rule order. |
| `Ec2.UnrenderableRulePanics` | cmd/kubenx/cmd/internal_ec2.go:102-120 | A rule with a nil protocol, `FromPort`, CIDR, group id or description makes the table panic. |
| `Ec2.AppendRangeRows` | cmd/kubenx/cmd/internal_ec2.go:110-114 | One `Inbound` row per IP range, with its CIDR and description, or a nil dereference when a range has no CIDR or no description. |
| `Ec2.AppendPairRows` | cmd/kubenx/cmd/internal_ec2.go:116-120 | One `Inbound` row per group pair, with its group id and description, or a nil dereference when a pair has no group id or no description. |
| `Ec2.AppendPermissionRows` | cmd/kubenx/cmd/internal_ec2.go:101-121 | One iteration appends the rule's rows, or panics. |
| `Ec2.SecurityGroupRows` | cmd/kubenx/cmd/internal_ec2.go:91-126 | The loop over the rules computes `GroupRows`. |
| `KubeConfig.DeleteOne` | cmd/kubenx/cmd/config.go:98-123 | One target panics if and only if it is not a context, and a panic changes nothing and writes nothing. Afterwards the target is not a context, and no context, cluster or auth info is added. |
| `KubeConfig.DeleteAll` | cmd/kubenx/cmd/config.go:97-124 | No context, cluster or auth info is added. When the loop completes, no target is a context any more. |
| `KubeConfig.DeleteOnePresent` | cmd/kubenx/cmd/config.go:97-124 | A present target loses its context, its cluster and its auth info. Only an absent cluster or auth info is reported. |
| `KubeConfig.MessagesDiffer` | cmd/kubenx/cmd/config.go:102-115 | The cluster message and the auth info message are different texts. |
| `KubeConfig.NoMissingContextMessage` | cmd/kubenx/cmd/config.go:118-123 | The "cannot delete context" message is never written. A missing context panics before its presence check. |
| `KubeConfig.DeleteAllDistinct` | cmd/kubenx/cmd/config.go:97-124 | For distinct present targets: there is no panic; the contexts are exactly the untargeted ones; the clusters and auth infos are exactly those no target names. Every kept entry is unchanged. |
| `KubeConfig.MissingTargetPanics` | cmd/kubenx/cmd/config.go:98-99 | A target that is not a context dereferences a nil context. |
| `KubeConfig.RepeatedTargetPanics` | cmd/kubenx/cmd/config.go:98-99 | A repeated target is gone the second time and panics. |
| `KubeConfig.SharedClusterReported` | cmd/kubenx/cmd/config.go:102-104 | When two targets share a cluster, the second reports "cannot delete cluster". |
| `KubeConfig.PanicStops` | cmd/kubenx/cmd/config.go:97-124 | After a panic, later targets change nothing. |
| `KubeConfig.ConfigFile` | cmd/kubenx/cmd/config.go:69-72 | The reported file is the explicit file when there is one, else the default. |
| `KubeConfig.TargetContexts` | cmd/kubenx/cmd/config.go:75-96 | With positional arguments there are no targets. Otherwise the targets are the interactive selection. |
| `KubeConfig.KubeConfigFile.DeleteContexts` | cmd/kubenx/cmd/config.go:97-124 | The in-place loop leaves the kubeconfig, messages and panic of `DeleteAll`. |
| `KubeConfig.KubeConfigFile.DeleteContext` | cmd/kubenx/cmd/config.go:98-123 | One turn edits the kubeconfig in place and writes the messages exactly as `DeleteOne` says, panicking on a target that is not a context. |
| `KubeConfig.KubeConfigFile.DeleteClusterConfig` | cmd/kubenx/cmd/config.go:62-133 | An empty selection writes nothing and succeeds. Otherwise the targets are deleted, and the config is written unless the loop panicked. On success it ends with the "Deleted context" line naming the file. |
| `Ssh.SshKey` | cmd/kubenx/cmd/ssh.go:36-50 | More than two arguments, or none, exits with its message. Otherwise the key is the first argument, and a second one is ignored. |
| `Ssh.RegistryPath` | cmd/kubenx/cmd/ssh.go:265-266 | The registry is `.kubenx/ssh` under the cleaned home directory (`/` when the home is `/`), or `.kubenx/ssh` itself when the home is empty. |
| `Ssh.RegistryPathTrailingSlash` | cmd/kubenx/cmd/ssh.go:265-266 | A home `/h/` with a trailing separator gives the same registry `/h/.kubenx/ssh` as `/h`. |
| `Ssh.KeyFilePath` | cmd/kubenx/cmd/ssh.go:300 | For an empty or plain relative key file name, the key file is `.ssh/<keyfile>` (or `.ssh`) under the cleaned home directory, or relative when the home is empty. |
| `Ssh.KeyFileJoined` | cmd/kubenx/cmd/ssh.go:300 | For every home and key file name, the path is `filepath.Clean` of `<home>/.ssh/<keyfile>`. |
| `Ssh.KeyFileLeadingSlash` | cmd/kubenx/cmd/ssh.go:300 | A key file name `/k` names the same file as `k`: the join does not make it absolute. |
| `Ssh.KeyFileParent` | cmd/kubenx/cmd/ssh.go:300 | A key file name `../k` leaves `.ssh`: the path is the home joined with `k`. |
| `Ssh.KeyFileUnderRootedHome` | cmd/kubenx/cmd/ssh.go:300 | Under an absolute home `/h`, both `/k` and `k` give `/h/.ssh/k`, and `../k` gives `/h/k`. |
| `Ssh.ConfigFor` | cmd/kubenx/cmd/ssh.go:283-301 | Without a server for the key, the address, port and user are empty. A non-empty address is that of some server with the key. |
| `GoStrings.Split` | cmd/kubenx/cmd/ssh.go:265-266 | `strings.Split` gives at least one field, and no field holds the separator. |
| `GoStrings.SplitConcat` | cmd/kubenx/cmd/ssh.go:265-266 | Splitting two texts with a separator between them gives the first text's fields, then the second's. |
| `GoStrings.JoinSplit` | cmd/kubenx/cmd/ssh.go:265-266 | Joining the fields of a split with its separator gives back the text. |
| `GoStrings.Clean` | cmd/kubenx/cmd/ssh.go:265-266 | `filepath.Clean` never gives `""`: empty and `.` elements go, `..` removes the element before it (at the root it goes), and an empty relative result is `.`. |
| `GoStrings.CleanIdempotent` | cmd/kubenx/cmd/ssh.go:265-266 | Cleaning twice is cleaning once. |
| `GoStrings.CleanUnder` | cmd/kubenx/cmd/ssh.go:265-266 | Appending plain elements to a path and cleaning is cleaning the path and then appending them. |
| `GoStrings.CleanUnderTrailing` | cmd/kubenx/cmd/ssh.go:265-266 | The same with a separator at the end, which is dropped. |
| `GoStrings.CleanPlainRel` | cmd/kubenx/cmd/ssh.go:300 | A path of plain elements is already clean. |
| `GoStrings.CleanRooted` | cmd/kubenx/cmd/ssh.go:265-266 | `/` followed by plain elements is clean, and a trailing separator is dropped. |
| `GoStrings.CleanDropsEmpty` | cmd/kubenx/cmd/ssh.go:300 | A doubled separator counts as one. |
| `GoStrings.CleanParent` | cmd/kubenx/cmd/ssh.go:300 | A plain element followed by `..` cancels out. |
| `GoStrings.PathJoin` | cmd/kubenx/cmd/ssh.go:265-266 | `filepath.Join` gives `""` exactly when every element is empty. |
| `GoStrings.PathJoinThree` | cmd/kubenx/cmd/ssh.go:300 | Joining three elements with a non-empty middle one cleans them put together with `/` (the first left out when empty). |
| `GoStrings.PathJoinChild` | cmd/kubenx/cmd/ssh.go:265-266 | Joining a home, a plain directory and an empty or plain relative name puts the directory and the name under the cleaned home. |
| `GoStrings.PathJoinClean` | cmd/kubenx/cmd/ssh.go:265-266 | A non-empty join is already clean. |
| `Ssh.FirstServer` | cmd/kubenx/cmd/ssh.go:283-293 | Gives the index of the first server with the key, or none if and only if no server has it. |
| `Ssh.FirstServerAt` | cmd/kubenx/cmd/ssh.go:284-293 | The first match is found, whatever follows it. |
| `Ssh.GetSshConfiguration` | cmd/kubenx/cmd/ssh.go:263-304 | A missing registry file exits. Otherwise the configuration is that of the first matching server. |
| `Ssh.AbsentKeyDefaults` | cmd/kubenx/cmd/ssh.go:283-301 | An absent key is no error: the address, port and user are empty, and the key file is `.ssh` under the cleaned home. |
| `Ssh.FirstMatchWins` | cmd/kubenx/cmd/ssh.go:284-293 | Later servers with the same key are ignored. |
| `Ssh.MalformedIsEmpty` | cmd/kubenx/cmd/ssh.go:280 | A malformed registry behaves as an empty one. |
| `Ssh.PlannedSteps` | cmd/kubenx/cmd/ssh.go:307-375 | There are always five planned steps (read key, parse key, bastion dial, remote dial, client connection). Their addresses and users are stated by `DialAddresses` and `NestedDialNeedsBastion`. |
| `Ssh.FirstFault` | cmd/kubenx/cmd/ssh.go:307-375 | The index of the first failing step (5 when none fails); every earlier step succeeded. |
| `Ssh.DialWithKeypair` | cmd/kubenx/cmd/ssh.go:307-375 | The steps are taken in order up to and including the first failure, which is returned. The bastion connection is open exactly when its dial succeeded. |
| `Ssh.NestedDialNeedsBastion` | cmd/kubenx/cmd/ssh.go:318-369 | The target is dialled only after the key and the bastion succeeded. Every connection logs in as `ec2-user`. |
| `Ssh.DialAddresses` | cmd/kubenx/cmd/ssh.go:326 | The bastion address is `addr:port` and the target is `<host>:22`. |
| `Ssh.TrySsh` | cmd/kubenx/cmd/ssh.go:183-210 | Argument errors, a missing registry and a failed dial each exit with their message. A successful dial took every planned step for the looked-up configuration. |
| `Common.IsStringInArr` | cmd/kubenx/cmd/common.go:50-58 | True if and only if some element equals the string. |
| `Common.NumErrorText` | cmd/kubenx/cmd/internal_common.go:58-63 | The message starts with the function name and `: parsing "`. |
| `Common.NumErrorTextNamesInput` | cmd/kubenx/cmd/internal_common.go:58-63 | Two inputs that fail the same way give the same message only when they are the same text. |
| `Common.StringToInt` | cmd/kubenx/cmd/common.go:83-90 | The parsed value when parsing succeeds. Otherwise the process exits with Go's `strconv.Atoi` message: the quoted input, then `invalid syntax` or `value out of range`. |
| `Common.StringToIntRoundTrip` | cmd/kubenx/cmd/internal_common.go:58-65 | Every 64-bit value's rendering converts back to the value. |
| `Common.StringToInt64AsWritten` | cmd/kubenx/cmd/internal_common.go:47-55 | As written: a successful parse exits, and only a failed parse returns (its zero or clamped value). |
| `Common.StringToInt64AsWrittenRejectsNumbers` | cmd/kubenx/cmd/internal_common.go:47-55 | As written, every well-formed number exits. |
| `Common.StringToInt64AsWrittenClamps` | cmd/kubenx/cmd/internal_common.go:47-55 | As written, `99999999999999999999x` returns the largest 64-bit value, where the corrected conversion exits. |
| `Common.StringToInt64` | cmd/kubenx/cmd/internal_common.go:47-55 | Corrected: the parsed value on success. Otherwise an exit with the `strconv.ParseInt` message: the quoted input, then the kind of error. |
| `Common.StringToInt64RoundTrip` | cmd/kubenx/cmd/internal_common.go:47-55 | Corrected: every 64-bit value's rendering converts back to the value. |
| `Common.GetSingleStringInput` | cmd/kubenx/cmd/common.go:93-105 | An error exactly when the answer is empty, else the answer. |
| `Common.GetSingleStringInputOrExit` | cmd/kubenx/cmd/internal_common.go:68-81 | An exit exactly when the answer is empty, else the answer. |
| `Common.PromptCopiesAgree` | cmd/kubenx/cmd/internal_common.go:68-81 | The two prompt copies accept the same answers and return the same value. |
| `Flags.BuilderArgs` | cmd/kubenx/cmd/flags.go:71-75 | The builder's arguments are value, name, default and usage; the default is left out exactly for `Var`. |
| `Flags.Flag.Get` | cmd/kubenx/cmd/flags.go:66-85 | A built flag is returned again unchanged. Otherwise a new one is built from the arguments, with shorthand and hidden copied, and kept. |
| `Flags.AttachedNamesMembers` | cmd/kubenx/cmd/flags.go:99-105 | A registry flag is attached to a child if and only if the child's `Use` is in its `DefinedOn`. |
| `Flags.AttachedNamesFrom` | cmd/kubenx/cmd/flags.go:99-105 | Only such flags are attached. |
| `Flags.AttachedMembers` | cmd/kubenx/cmd/flags.go:98-105 | The attached flags are the matching registry entries' flag objects, in registry order. |
| `Flags.AttachedStable` | cmd/kubenx/cmd/flags.go:103 | A child's flags depend only on the memos of the flags it matches. |
| `Flags.AttachEntry` | cmd/kubenx/cmd/flags.go:102-105 | A child gets one registry flag appended exactly when the flag lists its name; that flag is built if needed, and a built one is kept. |
| `Flags.AttachOne` | cmd/kubenx/cmd/flags.go:98-105 | One child gets the matching flags appended. Those are built if needed, and the other memos are untouched. |
| `Flags.SetCommandFlags` | cmd/kubenx/cmd/flags.go:96-106 | Every child gets its matching flags. A flag is built exactly when some child wants it, and a built flag is shared by all. |
| `Flags.AttachedNamesThree` | cmd/kubenx/cmd/flags.go:36-64 | The matches of a three-flag registry, spelled out in order. |
| `Flags.PodGetsAllFlags` | cmd/kubenx/cmd/flags.go:36-64 | `pod` gets `namespace`, `region` and `all`. |
| `Flags.ClusterGetsRegion` | cmd/kubenx/cmd/flags.go:53 | `cluster` gets only `region`. |
| `Flags.InitGetsRegion` | cmd/kubenx/cmd/flags.go:53 | `init` gets only `region`. |
| `Flags.ClusterRoleGetsAll` | cmd/kubenx/cmd/flags.go:62 | `clusterrole` gets only `all`. |
| `Flags.RoleGetsNamespaceAndAll` | cmd/kubenx/cmd/flags.go:44-62 | `role` gets `namespace` and `all`. |
| `Flags.AllIsNotSpecial` | cmd/kubenx/cmd/flags.go:33 | The word `all` in `DefinedOn` is matched literally and does not mean every command. |
| `Flags.NodeGetsNoFlag` | cmd/kubenx/cmd/flags.go:36-64 | `node` is listed by no registry flag and gets none. |
| `Executor.AlwaysSucceedWhenCancelled` | cmd/kubenx/cmd/cmd.go:95-101 | An error is dropped exactly when the context was cancelled. A nil error stays nil. |
| `Executor.AlwaysSucceedIdempotent` | cmd/kubenx/cmd/cmd.go:95-101 | Filtering twice is filtering once. |
| `Executor.ResolveNamespace` | cmd/kubenx/cmd/executor.go:85-101 | A non-empty flag is used without the kubeconfig; otherwise the kubeconfig's namespace or its error is used. `--all` gives `""` whenever it succeeds. |
| `Executor.FlagIgnoresKubeconfig` | cmd/kubenx/cmd/executor.go:85-90 | With the flag set, the kubeconfig lookup has no influence. |
| `Executor.CreateNewExecutor` | cmd/kubenx/cmd/executor.go:58-106 | The error is the first failing step's. The config is always stored; each client is set only when every step before it passed. The namespace is the resolved one. |
| `Executor.RunExecutor` | cmd/kubenx/cmd/executor.go:27-37 | A creation error is returned and the action does not run. Otherwise the action runs with the full executor, and its error is filtered by cancellation. |
| `PodCmd.ExecGetPod` | cmd/kubenx/cmd/pod.go:55-112 | A list error exits. An empty list prints the "No pod" message and succeeds. Otherwise there is one row per pod, in order, with the exit-code status. |
| `PodCmd.ExitCodeShown` | cmd/kubenx/cmd/pod.go:86-105 | A terminated last container shows `<reason> (Exit Code: <n>)`, and every container is counted. |
| `PodCmd.StylesDifferInStatusOnly` | cmd/kubenx/cmd/pod.go:82-107 | The `get pod` row and the listing row differ only in STATUS. |
| `PodCmd.ExecPortForward` | cmd/kubenx/cmd/pod.go:116-134 | A list error is printed and returned. Otherwise the pod names come in list order. |
| `Completion.UnsupportedShell` | cmd/kubenx/cmd/completion.go:80-82 | The message is `Unsupported shell type `, the shell name as `%q` quotes it, and a full stop. |
| `GoStrconv.QuoteInjective` | cmd/kubenx/cmd/completion.go:80-82 | Different strings have different `strconv.Quote` (`%q`) renderings. |
| `Completion.UnsupportedShellInjective` | cmd/kubenx/cmd/completion.go:80-82 | Different shell names give different messages. |
| `Completion.UnsupportedShellDistinct` | cmd/kubenx/cmd/completion.go:72-85 | The three usage messages differ. |
| `Completion.ShellFor` | cmd/kubenx/cmd/completion.go:72-85 | No argument, more than one, and an unknown shell are each their usage error; otherwise the named shell. |
| `Completion.SupportedShells` | cmd/kubenx/cmd/completion.go:41-46 | Exactly `bash` and `zsh` are supported. |
| `Completion.BoilerPlate` | cmd/kubenx/cmd/completion.go:88-90 | A non-empty boilerplate is written as given. An empty one is replaced by the default (a licence header), so what is written is never empty. |
| `Completion.Out.Write` | cmd/kubenx/cmd/completion.go:87-96 | A working writer appends the text. A broken one changes nothing and returns its error. |
| `Completion.RunCompletionBash` | cmd/kubenx/cmd/completion.go:87-96 | The output is the boilerplate, then the script; the first write error is returned. |
| `Completion.RunCompletionZsh` | cmd/kubenx/cmd/completion.go:98-243 | The zsh output is `#compdef`, the boilerplate, the wrapper's head, the script and the wrapper's tail. Only the boilerplate's write error is returned. |
| `Completion.RunCompletion` | cmd/kubenx/cmd/completion.go:72-85 | A usage error writes nothing. Otherwise the chosen shell's script is written, or the write error reported. |
| `Completion.ZshStartsWithCompdef` | cmd/kubenx/cmd/completion.go:99-108 | The zsh script begins with `#compdef \n`, immediately followed by the boilerplate. |
| `ServiceCmd.ExternalIp` | cmd/kubenx/cmd/service.go:52-58 | For a LoadBalancer, the first ingress hostname (index out of range when there is none). Otherwise `<None>` without external IPs, else `""`. |
| `ServiceCmd.PortItemsPositions` | cmd/kubenx/cmd/service.go:61-71 | Port `i` gives items `2i` and `2i+1`, so the items follow port order, two per port. |
| `ServiceCmd.PortItemsAt` | cmd/kubenx/cmd/service.go:61-71 | Port `i`'s first item parses back to its port number. Its second is `/TCP` exactly when the node port is zero, and `<nodePort>/TCP` otherwise. |
| `ServiceCmd.PortsColumn` | cmd/kubenx/cmd/service.go:61-71 | The port loop builds those items, two per port. |
| `ServiceCmd.PortWithoutNodePort` | cmd/kubenx/cmd/service.go:97 | A port without a node port shows as `<port>:/TCP`. |
| `ServiceCmd.SelectorPairs` | cmd/kubenx/cmd/service.go:74-79 | One `key=value` per selector entry, in order. |
| `ServiceCmd.LabelSelector` | cmd/kubenx/cmd/service.go:74-79 | The selector loop builds those pairs. |
| `ServiceCmd.Endpoints` | cmd/kubenx/cmd/service.go:89-95 | The endpoints are the matched pods' IPs in list order. |
| `ServiceCmd.ServiceRow` | cmd/kubenx/cmd/service.go:47-97 | A row has the seven header columns, with the external IP as the fourth. A row fails only by its load balancer without hostnames or, once the external IP is known, by the pod list error for its selector. |
| `ServiceCmd.ServiceRows` | cmd/kubenx/cmd/service.go:45-98 | When the rows succeed, there is one per service. |
| `ServiceCmd.FailsFirstPrefix` | cmd/kubenx/cmd/service.go:45-98 | A first failure within a prefix is the first failure of the whole list. |
| `ServiceCmd.ServiceRowsOk` | cmd/kubenx/cmd/service.go:45-98 | The rows succeed if and only if every service's row does. Each row is then the seven columns, with the selector's pods as endpoints. |
| `ServiceCmd.ServiceRowsFirstFailure` | cmd/kubenx/cmd/service.go:45-98 | A failure is that of the first failing service: its load balancer without hostnames, or its pod list error. |
| `ServiceCmd.PrefixFailureStops` | cmd/kubenx/cmd/service.go:82-86 | Once a service has failed, later services change nothing. |
| `ServiceCmd.ExecGetService` | cmd/kubenx/cmd/service.go:28-102 | A list error or a pod list error is printed and returned. A missing load-balancer hostname panics. Otherwise the table has every service's row. |
| `IngressCmd.Address` | cmd/kubenx/cmd/ingress.go:45-50 | `""` without load-balancer ingresses, else the first hostname. |
| `IngressCmd.Host` | cmd/kubenx/cmd/ingress.go:53-56 | The first rule's host, or `*` when it is empty; never empty. |
| `IngressCmd.PathTexts` | cmd/kubenx/cmd/ingress.go:58-67 | One path per backend path, in order. |
| `IngressCmd.ServiceNames` | cmd/kubenx/cmd/ingress.go:58-67 | One service name per path, in order. |
| `IngressCmd.SetPorts` | cmd/kubenx/cmd/ingress.go:62-64 | The ports that are set are never more than the paths, and none is zero. |
| `IngressCmd.NonZeroPorts` | cmd/kubenx/cmd/ingress.go:58-67 | The PORTS items are one per set port, in order, each its decimal rendering. |
| `IngressCmd.NonZeroPortsParse` | cmd/kubenx/cmd/ingress.go:62-64 | Each PORTS item parses back to a port that is not zero. |
| `IngressCmd.AllPortsShown` | cmd/kubenx/cmd/ingress.go:58-67 | When every path's port is set, the set ports are all the paths' ports, in path order. |
| `IngressCmd.NamedPortsHidden` | cmd/kubenx/cmd/ingress.go:58-67 | With only named (zero) ports, the port column is empty. |
| `IngressCmd.BackendColumns` | cmd/kubenx/cmd/ingress.go:58-67 | The path loop builds the port, service and path columns. |
| `IngressCmd.IngressRow` | cmd/kubenx/cmd/ingress.go:40-68 | Only the first rule is read. No rules at all is index out of range, and a first rule without HTTP paths is a nil dereference. |
| `IngressCmd.IngressRows` | cmd/kubenx/cmd/ingress.go:40-69 | When all rows succeed, there is one per ingress. |
| `IngressCmd.IngressRowsOk` | cmd/kubenx/cmd/ingress.go:40-69 | The rows succeed if and only if every ingress's row does, and then each row is that ingress's. |
| `IngressCmd.IngressRowsFirstPanic` | cmd/kubenx/cmd/ingress.go:40-69 | A failure is the panic of the first ingress that panics. |
| `IngressCmd.PrefixPanicStops` | cmd/kubenx/cmd/ingress.go:40-69 | Once an ingress has panicked, later ingresses change nothing. |
| `IngressCmd.ExecGetIngress` | cmd/kubenx/cmd/ingress.go:25-73 | A list error is printed and returned. Otherwise the table has every ingress's row, or the first panic. |

## Left out

- SSH transport and the terminal: dialling, raw mode, the PTY and the session (`cmd/kubenx/cmd/ssh.go`, lines 115-180 and 196-207) are network and TTY I/O. Only the order of the dial steps, their addresses and users, and which step fails are modelled.
- `_get_target_instance_configuration`: its body is commented out and it prompts. The target host is an input of `Ssh.TrySsh`.
- The port-forward tunnel: SPDY, the signal handling goroutine, `stopCh`/`readyCh` and the `WaitGroup` (`cmd/kubenx/cmd/pod.go` from line 139, `cmd/kubenx/app/signal.go`) are concurrency and foreign libraries. `PodCmd.ExecPortForward` stops at the list of pod names the prompt offers.
- AWS and Kubernetes SDK calls are inputs (list, describe, create-tags, STS, IAM, `clientcmd` loading and `ModifyConfig`):
  - a list call is an `Outcome` of items;
  - a `CreateTags` call is an error function of the request;
  - the pod list for a service selector is a function of the selector string.
- `survey` prompts: the answers are parameters.
- `tablewriter` and `pkg/color`: a table is a header and rows of strings, and coloured printing is a list of written lines.
- `duration.HumanDuration(time.Now() ...)`: the AGE cell is an input string, since it depends on the clock.
- The `reflect` call in `Flag.flag`: the built flag records the argument list it would be built from, with name, shorthand and hidden. pflag's own flag-set behaviour, such as a panic on a duplicate name in `AddFlag`, is not modelled.
- The `unsafe` `BytesToString`/`StringToBytes` helpers in `cmd/kubenx/cmd/common.go` have no Dafny counterpart.
- Not part of this model:
  - the credential flow of `context.go`;
  - the legacy `cmd/` package;
  - the nodegroup joins;
  - `runExecutorWithAWS` and `runWithoutExecutor`;
  - the root command's persistent defaults.
- `GoStrings.PathJoin`: `filepath.Join` and `filepath.Clean` are modelled for Unix paths, where `/` is the only separator. Windows volume names and `\` separators are not modelled.
- `Ssh.KeyFilePath`: its own contract covers an empty key file name and a plain relative one. A leading `/` and a leading `../` are stated by `KeyFileLeadingSlash`, `KeyFileParent` and `KeyFileUnderRootedHome`. For every other name, the path is whatever `Clean` makes of it (`KeyFileJoined`).
- `Completion.BoilerPlate`: the default boilerplate, a licence header, is an input and is not reproduced.
- `KubeConfig.KubeConfigFile.DeleteClusterConfig`: it starts once `GetStartingConfig` has loaded the config (`cmd/kubenx/cmd/config.go`, lines 64-67), so a load error is not modelled. Its result is the one `deleteClusterConfig` returns; `execDeleteConfig` drops that error and returns nil (lines 56-57), and that wrapper is not modelled.
- `Completion.RunCompletionZsh`: the zsh wrapper's fixed text is a parameter rather than a constant.
- `Ec2.ApplyTags`: the merge (a written tag replaces the tag with the same key, other tags stay) is how the EC2 `CreateTags` call behaves. It is not code in these files.
- `GoStrconv.ParseInt`: `strconv.Atoi` is modelled for a 64-bit `int`, as `ParseInt(s, 10, 64)`. Atoi's fast path for inputs shorter than 19 bytes gives the same results and is not modelled separately. Only base 10 is modelled; the `0x` and `_` forms of base 0 are not used by the source.
- `GoStrconv.QuoteChar`: non-ASCII characters are written as themselves. Go writes the ones `unicode.IsPrint` rejects as `\u` or `\U` escapes, and escapes bytes that are not valid UTF-8 as `\x`; a Dafny string holds no such bytes. `Common.NumErrorText` quotes its input with this model.
- `Common.StringToInt`: its exit message differs from Go's only in how `GoStrconv.QuoteChar` writes non-ASCII characters.
- `Common.StringToInt64`: likewise, its exit message differs from Go's only for non-ASCII characters in the input.
- `Ec2.SecurityGroupRows`: the table caption `*group.GroupName` is left to the table printer, so a nil group name (a panic in Go) is not modelled.
- `Flags.SetCommandFlags`: the `PersistentPreRunE` hook installed on each child (`cmd/kubenx/cmd/flags.go`, lines 108-128) is not modelled. When the command runs, that hook binds each attached flag to `viper` and then calls the parent's pre-run; both are foreign libraries acting at run time.
- Go map iteration order is unspecified. Every map the source iterates (annotations, a service's selector) is an input sequence of distinct-keyed entries. Properties that should not depend on order are stated for every such sequence.
- `ServiceCmd.ServiceRows` and `IngressCmd.IngressRows`: their own contracts state only the row count. Row contents, the success condition and the first failure are the lemmas `ServiceRowsOk`, `ServiceRowsFirstFailure`, `IngressRowsOk` and `IngressRowsFirstPanic`.

## Findings

| source | as written | input that shows it | evidently intended | confidence | as-written member | corrected member |
|---|---|---|---|---|---|---|
| cmd/kubenx/cmd/internal_common.go:47-55 | `_string_to_int64` exits when `strconv.ParseInt` returns no error, and returns the (zero or clamped) value when it fails | `"42"`: the process exits instead of returning 42 | exit when parsing fails, return the parsed value otherwise | not executed | `Common.StringToInt64AsWritten` (shown by `Common.StringToInt64AsWrittenRejectsNumbers`) | `Common.StringToInt64` (round trip proved by `Common.StringToInt64RoundTrip`) |
