/** The row and column shaping of the Kubernetes listing tables, shared by
    pkg/runner/internal_k8s.go and its near-copy cmd/kubenx/cmd/internal_k8s.go.
    Where the two copies differ (the NAMESPACE column, the VERSION column of
    the node table, the Terminated text of pod.go) the difference is a
    separate function or a `Variant` argument.

    A Go map that the source only indexes is a Dafny `map`; a Go map that the
    source walks with `range` is a sequence of its entries in the order the
    walk visits them (Go leaves that order unspecified). */
module K8sRows {

  import opened Wrappers
  import opened GoStrings
  import opened GoStrconv
  import Utils

  // ---------------------------------------------------------------- labels

  /** DEFAULT_NODE_LABEL_FILTERS. */
  const DefaultNodeLabelFilters: seq<string> := ["app", "env"]

  const NoLabelsText: string := "No Labels for filtering"

  /** Go's `labels[key]`: the zero value "" for a missing key. */
  function LabelValue(labels: map<string, string>, key: string): string
  {
    if key in labels then labels[key] else ""
  }

  /** The item of one filter key: `key=value` when the value is non-empty. */
  function FilterPair(labels: map<string, string>, key: string): seq<string>
  {
    if |LabelValue(labels, key)| > 0 then [key + "=" + LabelValue(labels, key)] else []
  }

  /** The `key=value` items for the filter keys whose label value is
      non-empty, in filter order. */
  function FilterPairs(labels: map<string, string>, filters: seq<string>): seq<string>
  {
    if |filters| == 0 then []
    else FilterPairs(labels, filters[..|filters| - 1]) + FilterPair(labels, filters[|filters| - 1])
  }

  lemma FilterPairsSnoc(labels: map<string, string>, filters: seq<string>, key: string)
    ensures FilterPairs(labels, filters + [key]) == FilterPairs(labels, filters) + FilterPair(labels, key)
  {
    assert (filters + [key])[..|filters|] == filters;
  }

  /** With the default filters the items are `app=...` then `env=...`, each
      present exactly when its label value is non-empty. */
  lemma DefaultFilterPairs(labels: map<string, string>)
    ensures FilterPairs(labels, DefaultNodeLabelFilters) == FilterPair(labels, "app") + FilterPair(labels, "env")
  {
    FilterPairsSnoc(labels, [], "app");
    FilterPairsSnoc(labels, ["app"], "env");
    assert [] + ["app"] == ["app"];
    assert ["app"] + ["env"] == DefaultNodeLabelFilters;
  }

  /** The label loop of `createLabelForOption` and of `render(Node)ListInfo`. */
  method LabelPairs(labels: map<string, string>, filters: seq<string>) returns (ret: seq<string>)
    ensures ret == FilterPairs(labels, filters)
    ensures |ret| <= |filters|
  {
    ret := [];
    var i := 0;
    while i < |filters|
      invariant 0 <= i <= |filters|
      invariant ret == FilterPairs(labels, filters[..i])
      invariant |ret| <= i
    {
      var key := filters[i];
      assert filters[..i + 1][..i] == filters[..i];
      if |LabelValue(labels, key)| > 0 {
        ret := ret + [key + "=" + LabelValue(labels, key)];
      }
      assert filters[..i + 1] == filters[..i] + [key];
      FilterPairsSnoc(labels, filters[..i], key);
      i := i + 1;
    }
    assert filters[..i] == filters;
  }

  /** The label text shown for a node in the selection prompt. */
  function LabelText(labels: map<string, string>): string
  {
    var pairs := FilterPairs(labels, DefaultNodeLabelFilters);
    if |pairs| == 0 then NoLabelsText else Join(pairs, ",")
  }

  /** `createLabelForOption`. */
  method CreateLabelForOption(labels: map<string, string>) returns (text: string)
    ensures text == LabelText(labels)
    ensures text == NoLabelsText <==> LabelValue(labels, "app") == "" && LabelValue(labels, "env") == ""
  {
    var ret := LabelPairs(labels, DefaultNodeLabelFilters);
    if |ret| == 0 {
      text := NoLabelsText;
    } else {
      text := Join(ret, ",");
    }
    LabelTextIsNoLabelsExactly(labels);
  }

  /** The fallback text appears exactly when neither filter key has a
      non-empty value: a real label text begins with `app=` or `env=`. */
  lemma LabelTextIsNoLabelsExactly(labels: map<string, string>)
    ensures LabelText(labels) == NoLabelsText
        <==> LabelValue(labels, "app") == "" && LabelValue(labels, "env") == ""
  {
    DefaultFilterPairs(labels);
    var pairs := FilterPairs(labels, DefaultNodeLabelFilters);
    if |pairs| > 0 {
      JoinStartsWithFirst(pairs, ",");
      var j := Join(pairs, ",");
      var key := if |LabelValue(labels, "app")| > 0 then "app" else "env";
      assert pairs[0] == key + "=" + LabelValue(labels, key);
      assert pairs[0][..4] == key + "=";
      assert j[0] == key[0] != NoLabelsText[0];
      assert LabelText(labels) == j;
      assert LabelValue(labels, key) != "";
    }
  }

  /** With both filter keys set the text is `app=<a>,env=<e>`. */
  lemma LabelTextBoth(labels: map<string, string>)
    requires LabelValue(labels, "app") != "" && LabelValue(labels, "env") != ""
    ensures LabelText(labels) == "app=" + LabelValue(labels, "app") + ",env=" + LabelValue(labels, "env")
  {
    var a, e := LabelValue(labels, "app"), LabelValue(labels, "env");
    assert "app" + "=" == "app=" && "env" + "=" == "env=";
    DefaultFilterPairs(labels);
    assert FilterPairs(labels, DefaultNodeLabelFilters) == ["app=" + a, "env=" + e];
    JoinTwo("app=" + a, "env=" + e, ",");
    assert "app=" + a + "," + ("env=" + e) == "app=" + a + ",env=" + e;
  }

  // ------------------------------------------------- node options & target

  datatype NodeAddress = NodeAddress(kind: string, address: string)
  datatype NodeCondition = NodeCondition(kind: string, status: string)
  datatype Node = Node(
    name: string,
    labels: map<string, string>,
    addresses: seq<NodeAddress>,
    conditions: seq<NodeCondition>,
    kubeletVersion: string,
    osImage: string,
    age: string)

  /** The address of the first entry of the given type. */
  function FirstAddress(addrs: seq<NodeAddress>, kind: string): Option<string>
  {
    if |addrs| == 0 then None
    else if addrs[0].kind == kind then Some(addrs[0].address)
    else FirstAddress(addrs[1..], kind)
  }

  /** The option text `<address> (<label text>)`. */
  function OptionText(address: string, labelText: string): string
  {
    address + " (" + labelText + ")"
  }

  /** The options offered for the nodes: one per node that has a `Hostname`
      address, from its first such address, in node order. */
  function NodeOptions(nodes: seq<Node>): (r: seq<string>)
    ensures |r| <= |nodes|
  {
    if |nodes| == 0 then []
    else
      var last := nodes[|nodes| - 1];
      NodeOptions(nodes[..|nodes| - 1])
        + (match FirstAddress(last.addresses, "Hostname")
           case Some(a) => [OptionText(a, LabelText(last.labels))]
           case None => [])
  }

  /** The number of nodes that carry a `Hostname` address. */
  function CountWithHostname(nodes: seq<Node>): nat
  {
    if |nodes| == 0 then 0
    else
      CountWithHostname(nodes[..|nodes| - 1])
        + (if FirstAddress(nodes[|nodes| - 1].addresses, "Hostname").Some? then 1 else 0)
  }

  lemma {:induction false} NodeOptionsCount(nodes: seq<Node>)
    ensures |NodeOptions(nodes)| == CountWithHostname(nodes) <= |nodes|
  {
    if |nodes| > 0 {
      NodeOptionsCount(nodes[..|nodes| - 1]);
    }
  }

  /** The hostname scan of one node: the first `Hostname` address, then `break`. */
  method FirstHostname(addrs: seq<NodeAddress>) returns (found: Option<string>)
    ensures found == FirstAddress(addrs, "Hostname")
  {
    found := None;
    var i := 0;
    while i < |addrs|
      invariant 0 <= i <= |addrs|
      invariant FirstAddress(addrs, "Hostname") == FirstAddress(addrs[i..], "Hostname")
    {
      assert addrs[i..][1..] == addrs[i + 1..];
      if addrs[i].kind == "Hostname" {
        found := Some(addrs[i].address);
        break;
      }
      i := i + 1;
    }
  }

  /** `getNodeListForOption` / `GetNodeListForOption` after the node list
      call (whose failure exits the process; the nodes are the input). */
  method GetNodeListForOption(nodes: seq<Node>) returns (nodeList: seq<string>)
    ensures nodeList == NodeOptions(nodes)
    ensures |nodeList| == CountWithHostname(nodes)
  {
    nodeList := [];
    var i := 0;
    while i < |nodes|
      invariant 0 <= i <= |nodes|
      invariant nodeList == NodeOptions(nodes[..i])
    {
      assert nodes[..i + 1][..i] == nodes[..i];
      var found := FirstHostname(nodes[i].addresses);
      if found.Some? {
        var labels := CreateLabelForOption(nodes[i].labels);
        nodeList := nodeList + [found.value + " (" + labels + ")"];
      }
      i := i + 1;
    }
    assert nodes[..i] == nodes;
    NodeOptionsCount(nodes);
  }

  /** `getTargetNode` / `GetTargetNode`: exactly one argument is used as
      given; otherwise the node options (computed by the caller) are offered
      and the answer's text before the first space is the node. */
  function GetTargetNode(args: seq<string>, options: seq<string>, answer: string): (r: Outcome<string>)
    ensures |args| == 1 ==> r == Ok(args[0])
    ensures |args| != 1 && |options| == 0 ==> r == Err("No node list")
    ensures |args| != 1 && |options| > 0 ==> r.Ok? && r.value <= answer && ' ' !in r.value
    ensures |args| != 1 && |options| > 0 && ' ' in answer ==> answer[|r.value|] == ' '
  {
    if |args| == 1 then Ok(args[0])
    else if |options| == 0 then Err("No node list")
    else Ok(BeforeFirst(answer, ' '))
  }

  /** Choosing an option recovers its address when the address holds no space. */
  lemma TargetNodeRecoversAddress(args: seq<string>, options: seq<string>, address: string, labelText: string)
    requires |args| != 1 && |options| > 0
    requires ' ' !in address
    ensures GetTargetNode(args, options, OptionText(address, labelText)) == Ok(address)
  {
    var rest := "(" + labelText + ")";
    assert OptionText(address, labelText) == address + [' '] + rest;
    IndexOfAfter(address, ' ', rest);
  }

  // ------------------------------------------------------------ port-forward

  /** The request path of `portForwardToPod` / `PortForwardToPod`. The
      ensures records its shape; `PortForwardPathFields` and
      `PortForwardPathInjective` say what the path identifies. */
  function PortForwardPath(namespace: string, name: string): (p: string)
    ensures p == "/api/v1/namespaces/" + namespace + "/pods/" + name + "/portforward"
  {
    "/api/v1/namespaces/" + namespace + "/pods/" + name + "/portforward"
  }

  /** The namespace is the path's field after `/api/v1/namespaces/`, when
      it holds no `/`, and the pod name is what lies between `/pods/` and
      the closing `/portforward`. */
  lemma PortForwardPathFields(ns: string, name: string)
    requires '/' !in ns
    ensures var p := PortForwardPath(ns, name);
      && BeforeFirst(p[19..], '/') == ns
      && 19 + |ns| + 6 <= |p| - 12
      && p[19 + |ns| + 6..|p| - 12] == name
  {
    var p := PortForwardPath(ns, name);
    var after := "pods/" + name + "/portforward";
    assert p == "/api/v1/namespaces/" + (ns + ['/'] + after);
    assert p[19..] == ns + ['/'] + after;
    IndexOfAfter(ns, '/', after);
    var head := "/api/v1/namespaces/" + ns + "/pods/";
    assert p == head + name + "/portforward";
    assert |head| == 19 + |ns| + 6;
    assert p[|head|..|p| - 12] == name;
  }

  /** The path names one pod: when namespaces hold no `/`, as Kubernetes
      names do not, two equal paths have the same namespace and pod name. */
  lemma PortForwardPathInjective(ns1: string, name1: string, ns2: string, name2: string)
    requires '/' !in ns1 && '/' !in ns2
    requires PortForwardPath(ns1, name1) == PortForwardPath(ns2, name2)
    ensures ns1 == ns2 && name1 == name2
  {
    PortForwardPathFields(ns1, name1);
    PortForwardPathFields(ns2, name2);
  }

  /** The character SET that `strings.TrimLeft(host, "htps:/")` strips. */
  const HostCutset: set<char> := {'h', 't', 'p', 's', ':', '/'}

  /** The host of the port-forward URL: every leading character of the REST
      host that is one of h, t, p, s, ':' or '/' is dropped. */
  function PortForwardHost(restHost: string): (h: string)
    ensures |h| <= |restHost| && h == restHost[|restHost| - |h|..]
    ensures h == "" || h[0] !in HostCutset
    ensures forall i :: 0 <= i < |restHost| - |h| ==> restHost[i] in HostCutset
  {
    TrimLeft(restHost, HostCutset)
  }

  /** The cutset is not a scheme prefix: the letters of the set that begin
      the name of an `https://` host are lost too ("https://stage.x" gives
      "age.x"). */
  lemma PortForwardHostLosesLetters(letters: string, name: string)
    requires forall i :: 0 <= i < |letters| ==> letters[i] in HostCutset
    requires name == "" || name[0] !in HostCutset
    ensures PortForwardHost("https://" + letters + name) == name
  {
    var scheme := "https://";
    assert forall i :: 0 <= i < |scheme| ==> scheme[i] in HostCutset;
    assert forall i :: 0 <= i < |scheme + letters| ==> (scheme + letters)[i] in HostCutset;
    TrimLeftDropsPrefix(scheme + letters, name, HostCutset);
  }

  // -------------------------------------------------------- namespace column

  /** `combineNamespace`: with an empty namespace (all namespaces) a leading
      NAMESPACE column is added, holding the header or the row's namespace. */
  function CombineNamespace(origin: seq<string>, header: bool, namespace: string, target: string): (r: seq<string>)
    ensures namespace != "" ==> r == origin
    ensures namespace == "" ==> |r| == |origin| + 1 && r[1..] == origin
    ensures namespace == "" ==> r[0] == (if header then "NAMESPACE" else target)
  {
    if namespace != "" then origin
    else if header then ["NAMESPACE"] + origin
    else [target] + origin
  }

  // ------------------------------------------------------- first five keys

  function Min(a: nat, b: nat): nat { if a < b then a else b }

  /** The key loops of the service-account, secret and configmap tables:
      append names in order and `break` once five are collected. */
  method FirstFive(names: seq<string>) returns (keyGroups: seq<string>)
    ensures keyGroups == names[..Min(5, |names|)]
    ensures |keyGroups| == Min(5, |names|)
  {
    keyGroups := [];
    var i := 0;
    while i < |names|
      invariant 0 <= i <= |names| && i < 5
      invariant keyGroups == names[..i]
    {
      keyGroups := keyGroups + [names[i]];
      assert names[..i + 1] == names[..i] + [names[i]];
      i := i + 1;
      if |keyGroups| == 5 {
        break;
      }
    }
  }

  // ------------------------------------------------------------- IAM role

  /** AWS_IAM_ANNOTATION. */
  const AwsIamAnnotation: string := "eks.amazonaws.com/role-arn"

  predicate DistinctKeys<V>(entries: seq<(string, V)>)
  {
    forall i, j :: 0 <= i < j < |entries| ==> entries[i].0 != entries[j].0
  }

  /** The IAM ROLE column: the second `/`-field of the role annotation of
      the first entry with that key, "" without one. `strings.Split(...)[1]`
      panics when the value holds no `/`. */
  function IamRoleOf(annotations: seq<(string, string)>): (r: Outcome<string>)
    ensures r.Ok? || r.Panic?
  {
    if |annotations| == 0 then Ok("")
    else if annotations[0].0 == AwsIamAnnotation then
      match SecondField(annotations[0].1, '/')
      case Some(role) => Ok(role)
      case None => Panic(IndexOutOfRange)
    else IamRoleOf(annotations[1..])
  }

  /** The annotation loop of `render(ServiceAccounts)ListInfo`. */
  method IamRole(annotations: seq<(string, string)>) returns (iamRole: Outcome<string>)
    ensures iamRole == IamRoleOf(annotations)
  {
    iamRole := Ok("");
    var i := 0;
    while i < |annotations|
      invariant 0 <= i <= |annotations|
      invariant IamRoleOf(annotations) == IamRoleOf(annotations[i..])
    {
      assert annotations[i..][1..] == annotations[i + 1..];
      var (key, value) := annotations[i];
      if key == AwsIamAnnotation {
        var f := SecondField(value, '/');
        if f.None? {
          iamRole := Panic(IndexOutOfRange);
        } else {
          iamRole := Ok(f.value);
        }
        break;
      }
      i := i + 1;
    }
  }

  /** In a map (distinct keys) the column depends only on the annotation's
      value: "" when absent, otherwise its second `/`-field. */
  lemma {:induction false} IamRoleOfMap(annotations: seq<(string, string)>, k: nat)
    requires DistinctKeys(annotations)
    requires k < |annotations| && annotations[k].0 == AwsIamAnnotation
    ensures IamRoleOf(annotations) == match SecondField(annotations[k].1, '/')
      case Some(role) => Ok(role)
      case None => Panic(IndexOutOfRange)
  {
    if k > 0 {
      assert annotations[0].0 != annotations[k].0;
      assert annotations[1..][k - 1] == annotations[k];
      IamRoleOfMap(annotations[1..], k - 1);
    }
  }

  lemma {:induction false} IamRoleAbsent(annotations: seq<(string, string)>)
    requires forall i :: 0 <= i < |annotations| ==> annotations[i].0 != AwsIamAnnotation
    ensures IamRoleOf(annotations) == Ok("")
  {
    if |annotations| > 0 {
      assert forall i :: 0 <= i < |annotations[1..]| ==> annotations[1..][i] == annotations[i + 1];
      IamRoleAbsent(annotations[1..]);
    }
  }

  /** A role ARN `<prefix>/<name>` with one `/` shows the role name. */
  lemma IamRoleOfArn(prefix: string, name: string)
    requires '/' !in prefix && '/' !in name
    ensures IamRoleOf([(AwsIamAnnotation, prefix + "/" + name)]) == Ok(name)
  {
    assert prefix + "/" + name == prefix + ['/'] + name;
    SecondFieldBetween(prefix, '/', name);
  }

  // ------------------------------------------------------------ pod status

  datatype Terminated = Terminated(reason: string, exitCode: int32)
  datatype ContainerState = ContainerState(waiting: Option<string>, running: bool, terminated: Option<Terminated>)
  datatype ContainerStatus = ContainerStatus(ready: bool, state: ContainerState)

  /** How a Terminated container is shown: the reason alone
      (internal_k8s.go, both copies) or followed by ` (Exit Code: <n>)`
      (pod.go). */
  datatype TerminatedStyle = ReasonOnly | ReasonAndExitCode

  function TerminatedText(style: TerminatedStyle, t: Terminated): string
  {
    match style
    case ReasonOnly => t.reason
    case ReasonAndExitCode => t.reason + " (Exit Code: " + Utils.Int32ToString(t.exitCode) + ")"
  }

  /** What one non-waiting container writes into STATUS: its Terminated
      text (written after Running, so it wins), else "Running", else nothing. */
  function Shown(c: ContainerStatus, style: TerminatedStyle): Option<string>
  {
    if c.state.terminated.Some? then Some(TerminatedText(style, c.state.terminated.value))
    else if c.state.running then Some("Running")
    else None
  }

  /** STATUS after the scan of non-waiting containers: the text of the last
      one that shows something, else the phase. */
  function LastShown(cs: seq<ContainerStatus>, phase: string, style: TerminatedStyle): string
  {
    if |cs| == 0 then phase
    else match Shown(cs[|cs| - 1], style)
      case Some(s) => s
      case None => LastShown(cs[..|cs| - 1], phase, style)
  }

  function CountReady(cs: seq<ContainerStatus>): nat
  {
    if |cs| == 0 then 0 else CountReady(cs[..|cs| - 1]) + (if cs[|cs| - 1].ready then 1 else 0)
  }

  /** The index of the first Waiting container, or |cs|. */
  function FirstWaiting(cs: seq<ContainerStatus>): (k: nat)
    ensures k <= |cs|
    ensures k < |cs| ==> cs[k].state.waiting.Some?
    ensures forall j :: 0 <= j < k ==> cs[j].state.waiting.None?
  {
    if |cs| == 0 then 0
    else if cs[0].state.waiting.Some? then 0
    else 1 + FirstWaiting(cs[1..])
  }

  datatype PodSummary = PodSummary(readyCount: nat, totalCount: nat, status: string)

  /** READY and STATUS of a pod: the scan stops at the first Waiting
      container, whose reason is the status; otherwise the last container
      that is Running or Terminated decides, and the phase is the default. */
  function Summary(phase: string, cs: seq<ContainerStatus>, style: TerminatedStyle): (r: PodSummary)
    ensures r.totalCount <= |cs|
    ensures |cs| > 0 ==> r.totalCount > 0
  {
    PodSummary(ReadyCount(cs), TotalCount(cs), StatusText(phase, cs, style))
  }

  /** READY's first number: the ready containers up to the first Waiting one. */
  function ReadyCount(cs: seq<ContainerStatus>): nat
  {
    var k := FirstWaiting(cs);
    if k < |cs| then CountReady(cs[..k + 1]) else CountReady(cs)
  }

  /** READY's second number: the containers up to the first Waiting one. */
  function TotalCount(cs: seq<ContainerStatus>): nat
  {
    var k := FirstWaiting(cs);
    if k < |cs| then k + 1 else |cs|
  }

  /** STATUS: the first Waiting reason, else the last shown text. */
  function StatusText(phase: string, cs: seq<ContainerStatus>, style: TerminatedStyle): string
  {
    var k := FirstWaiting(cs);
    if k < |cs| then cs[k].state.waiting.value else LastShown(cs, phase, style)
  }

  /** The container loop of `render(Pod)ListInfo` / `RenderPodListInfo`
      (ReasonOnly) and of `execGetPod` (ReasonAndExitCode). */
  method ContainerSummary(phase: string, cs: seq<ContainerStatus>, style: TerminatedStyle)
    returns (readyCount: nat, totalCount: nat, status: string)
    ensures PodSummary(readyCount, totalCount, status) == Summary(phase, cs, style)
  {
    readyCount, totalCount := 0, 0;
    status := phase;
    var i := 0;
    while i < |cs|
      invariant 0 <= i <= |cs|
      invariant totalCount == i
      invariant readyCount == CountReady(cs[..i])
      invariant forall j :: 0 <= j < i ==> cs[j].state.waiting.None?
      invariant status == LastShown(cs[..i], phase, style)
    {
      assert cs[..i + 1][..i] == cs[..i];
      totalCount := totalCount + 1;
      if cs[i].ready {
        readyCount := readyCount + 1;
      }
      if cs[i].state.waiting.Some? {
        status := cs[i].state.waiting.value;
        break;
      }
      if cs[i].state.running {
        status := "Running";
      }
      if cs[i].state.terminated.Some? {
        status := TerminatedText(style, cs[i].state.terminated.value);
      }
      i := i + 1;
    }
    assert cs[..|cs|] == cs;
  }

  lemma {:induction false} CountReadyBound(cs: seq<ContainerStatus>)
    ensures CountReady(cs) <= |cs|
  {
    if |cs| > 0 {
      CountReadyBound(cs[..|cs| - 1]);
    }
  }

  /** READY never shows more ready containers than it counts, and it counts
      the containers up to and including the first Waiting one. */
  lemma SummaryBounds(phase: string, cs: seq<ContainerStatus>, style: TerminatedStyle)
    ensures Summary(phase, cs, style).readyCount <= Summary(phase, cs, style).totalCount <= |cs|
    ensures Summary(phase, cs, style).totalCount == Min(FirstWaiting(cs) + 1, |cs|)
  {
    var k := FirstWaiting(cs);
    if k < |cs| {
      CountReadyBound(cs[..k + 1]);
      assert ReadyCount(cs) == CountReady(cs[..k + 1]);
    } else {
      CountReadyBound(cs);
      assert ReadyCount(cs) == CountReady(cs);
    }
  }

  /** The first Waiting container's reason is the status. */
  lemma SummaryWaiting(phase: string, cs: seq<ContainerStatus>, style: TerminatedStyle, k: nat)
    requires k < |cs| && cs[k].state.waiting.Some?
    requires forall j :: 0 <= j < k ==> cs[j].state.waiting.None?
    ensures Summary(phase, cs, style).status == cs[k].state.waiting.value
    ensures Summary(phase, cs, style).totalCount == k + 1
  {
  }

  /** Without a Waiting container the last Running/Terminated one decides. */
  lemma {:induction false} LastShownIsLast(cs: seq<ContainerStatus>, phase: string, style: TerminatedStyle, j: nat)
    requires j < |cs| && Shown(cs[j], style).Some?
    requires forall l :: j < l < |cs| ==> Shown(cs[l], style).None?
    ensures LastShown(cs, phase, style) == Shown(cs[j], style).value
  {
    if j < |cs| - 1 {
      var p := cs[..|cs| - 1];
      assert forall l :: j < l < |p| ==> p[l] == cs[l];
      LastShownIsLast(p, phase, style, j);
    }
  }

  /** Without any Running, Terminated or Waiting container the phase stays. */
  lemma {:induction false} LastShownPhase(cs: seq<ContainerStatus>, phase: string, style: TerminatedStyle)
    requires forall l :: 0 <= l < |cs| ==> Shown(cs[l], style).None?
    ensures LastShown(cs, phase, style) == phase
  {
    if |cs| > 0 {
      var p := cs[..|cs| - 1];
      assert forall l :: 0 <= l < |p| ==> p[l] == cs[l];
      LastShownPhase(p, phase, style);
    }
  }

  /** Terminated overrides Running within one container. */
  lemma TerminatedWinsOverRunning(t: Terminated, style: TerminatedStyle)
    ensures Shown(ContainerStatus(true, ContainerState(None, true, Some(t))), style) == Some(TerminatedText(style, t))
  {
  }

  /** The READY column `<ready>/<total>` (strconv.Itoa on both counts). */
  function ReadyText(s: PodSummary): string
  {
    FormatInt(s.readyCount) + "/" + FormatInt(s.totalCount)
  }

  // ---------------------------------------------------------------- nodes

  /** The address of the last entry of the given type, or `prev` when the
      node has none (the variable keeps its earlier value). */
  function LastAddress(addrs: seq<NodeAddress>, kind: string, prev: string): string
  {
    if |addrs| == 0 then prev
    else if addrs[|addrs| - 1].kind == kind then addrs[|addrs| - 1].address
    else LastAddress(addrs[..|addrs| - 1], kind, prev)
  }

  /** The value of the `internalIp` / `externalIp` variable after the
      first `n` nodes: it is declared outside the node loop and only
      assigned when a node has an address of that type. */
  function CarriedAddress(nodes: seq<Node>, n: nat, kind: string): string
    requires n <= |nodes|
  {
    if n == 0 then ""
    else LastAddress(nodes[n - 1].addresses, kind, CarriedAddress(nodes, n - 1, kind))
  }

  /** The STATUS of a node: the type of the last condition whose status is "True". */
  function NodeStatusOf(conds: seq<NodeCondition>): string
  {
    if |conds| == 0 then ""
    else if conds[|conds| - 1].status == "True" then conds[|conds| - 1].kind
    else NodeStatusOf(conds[..|conds| - 1])
  }

  datatype NodeRow = NodeRow(
    name: string, status: string, internalIp: string, externalIp: string,
    labels: string, kubeletVersion: string, osImage: string, age: string)

  function NodeRowAt(nodes: seq<Node>, i: nat): NodeRow
    requires i < |nodes|
  {
    var n := nodes[i];
    NodeRow(n.name, NodeStatusOf(n.conditions),
      CarriedAddress(nodes, i + 1, "InternalIP"), CarriedAddress(nodes, i + 1, "ExternalIP"),
      Join(FilterPairs(n.labels, DefaultNodeLabelFilters), ","), n.kubeletVersion, n.osImage, n.age)
  }

  /** The address loop of one node, updating the two outer variables. */
  method ScanAddresses(addrs: seq<NodeAddress>, internalIp0: string, externalIp0: string)
    returns (internalIp: string, externalIp: string)
    ensures internalIp == LastAddress(addrs, "InternalIP", internalIp0)
    ensures externalIp == LastAddress(addrs, "ExternalIP", externalIp0)
  {
    internalIp, externalIp := internalIp0, externalIp0;
    var i := 0;
    while i < |addrs|
      invariant 0 <= i <= |addrs|
      invariant internalIp == LastAddress(addrs[..i], "InternalIP", internalIp0)
      invariant externalIp == LastAddress(addrs[..i], "ExternalIP", externalIp0)
    {
      assert addrs[..i + 1][..i] == addrs[..i];
      if addrs[i].kind == "InternalIP" {
        internalIp := addrs[i].address;
      }
      if addrs[i].kind == "ExternalIP" {
        externalIp := addrs[i].address;
      }
      i := i + 1;
    }
    assert addrs[..i] == addrs;
  }

  /** The condition loop of one node. */
  method NodeStatus(conds: seq<NodeCondition>) returns (status: string)
    ensures status == NodeStatusOf(conds)
  {
    status := "";
    var i := 0;
    while i < |conds|
      invariant 0 <= i <= |conds|
      invariant status == NodeStatusOf(conds[..i])
    {
      assert conds[..i + 1][..i] == conds[..i];
      if conds[i].status == "True" {
        status := conds[i].kind;
      }
      i := i + 1;
    }
    assert conds[..i] == conds;
  }

  /** The node loop of `render(Node)ListInfo`: one row per node in order. */
  method NodeRows(nodes: seq<Node>) returns (rows: seq<NodeRow>)
    ensures |rows| == |nodes|
    ensures forall i :: 0 <= i < |nodes| ==> rows[i] == NodeRowAt(nodes, i)
  {
    var externalIp, internalIp := "", "";
    rows := [];
    var i := 0;
    while i < |nodes|
      invariant 0 <= i <= |nodes|
      invariant |rows| == i
      invariant forall j :: 0 <= j < i ==> rows[j] == NodeRowAt(nodes, j)
      invariant internalIp == CarriedAddress(nodes, i, "InternalIP")
      invariant externalIp == CarriedAddress(nodes, i, "ExternalIP")
    {
      var n := nodes[i];
      var labels := LabelPairs(n.labels, DefaultNodeLabelFilters);
      internalIp, externalIp := ScanAddresses(n.addresses, internalIp, externalIp);
      var status := NodeStatus(n.conditions);
      var row := NodeRow(n.name, status, internalIp, externalIp, Join(labels, ","), n.kubeletVersion, n.osImage, n.age);
      assert row == NodeRowAt(nodes, i);
      rows := rows + [row];
      i := i + 1;
    }
  }


  lemma {:induction false} LastAddressOwn(addrs: seq<NodeAddress>, kind: string, prev: string, j: nat)
    requires j < |addrs| && addrs[j].kind == kind
    requires forall l :: j < l < |addrs| ==> addrs[l].kind != kind
    ensures LastAddress(addrs, kind, prev) == addrs[j].address
  {
    if j < |addrs| - 1 {
      var p := addrs[..|addrs| - 1];
      assert forall l :: j < l < |p| ==> p[l] == addrs[l];
      LastAddressOwn(p, kind, prev, j);
    }
  }

  lemma {:induction false} LastAddressNone(addrs: seq<NodeAddress>, kind: string, prev: string)
    requires forall l :: 0 <= l < |addrs| ==> addrs[l].kind != kind
    ensures LastAddress(addrs, kind, prev) == prev
  {
    if |addrs| > 0 {
      var p := addrs[..|addrs| - 1];
      assert forall l :: 0 <= l < |p| ==> p[l] == addrs[l];
      LastAddressNone(p, kind, prev);
    }
  }

  /** A node with an InternalIP address shows the last one it has. */
  lemma NodeInternalIpOwn(nodes: seq<Node>, i: nat, j: nat)
    requires i < |nodes| && j < |nodes[i].addresses| && nodes[i].addresses[j].kind == "InternalIP"
    requires forall l :: j < l < |nodes[i].addresses| ==> nodes[i].addresses[l].kind != "InternalIP"
    ensures NodeRowAt(nodes, i).internalIp == nodes[i].addresses[j].address
  {
    LastAddressOwn(nodes[i].addresses, "InternalIP", CarriedAddress(nodes, i, "InternalIP"), j);
  }

  /** A node without an InternalIP/ExternalIP address shows the previous
      node's value (and "" for the first node). */
  lemma NodeAddressCarried(nodes: seq<Node>, i: nat, kind: string)
    requires i < |nodes|
    requires forall l :: 0 <= l < |nodes[i].addresses| ==> nodes[i].addresses[l].kind != kind
    ensures CarriedAddress(nodes, i + 1, kind) == (if i == 0 then "" else CarriedAddress(nodes, i, kind))
    ensures kind == "InternalIP" && i > 0 ==> NodeRowAt(nodes, i).internalIp == NodeRowAt(nodes, i - 1).internalIp
    ensures kind == "ExternalIP" && i > 0 ==> NodeRowAt(nodes, i).externalIp == NodeRowAt(nodes, i - 1).externalIp
  {
    LastAddressNone(nodes[i].addresses, kind, CarriedAddress(nodes, i, kind));
  }

  /** The VERSION column is in the runner's node table only. */
  function RunnerNodeColumns(r: NodeRow): (cols: seq<string>)
    ensures |cols| == 8 && cols[5] == r.kubeletVersion
  {
    [r.name, r.status, r.internalIp, r.externalIp, r.labels, r.kubeletVersion, r.osImage, r.age]
  }

  function CmdNodeColumns(r: NodeRow): (cols: seq<string>)
    ensures |cols| == 7 && cols == RunnerNodeColumns(r)[..5] + RunnerNodeColumns(r)[6..]
  {
    [r.name, r.status, r.internalIp, r.externalIp, r.labels, r.osImage, r.age]
  }

  // --------------------------------------------------------------- tables

  datatype Table = Table(header: seq<string>, rows: seq<seq<string>>)

  /** What a `render*ListInfo` call ends with: `false` (nothing rendered),
      a rendered table with `true`, or a panic while building a row. */
  datatype Render = NotRendered | Rendered(table: Table) | RenderPanic(reason: string)

  /** Which copy renders: the runner first resolves the namespace (its
      result is the argument) and adds the NAMESPACE column; the cmd copy
      does neither. */
  datatype Variant = Runner(namespace: Outcome<string>) | Cmd

  /** A copy that renders stops with `false` on an empty list or (runner)
      a namespace error before it builds any row. */
  predicate Stops(v: Variant, count: nat)
  {
    count == 0 || (v.Runner? && !v.namespace.Ok?)
  }

  /** The header and rows of a copy, given each row's namespace. */
  function Frame(v: Variant, nsColumn: bool, header: seq<string>, rows: seq<seq<string>>, rowNamespaces: seq<string>): (t: Table)
    requires |rows| == |rowNamespaces|
    requires v.Runner? ==> v.namespace.Ok?
    ensures |t.rows| == |rows|
    ensures !(v.Runner? && nsColumn) ==> t == Table(header, rows)
    ensures v.Runner? && nsColumn ==> t.header == CombineNamespace(header, true, v.namespace.value, "")
    ensures v.Runner? && nsColumn ==> forall i :: 0 <= i < |rows| ==>
      t.rows[i] == CombineNamespace(rows[i], false, v.namespace.value, rowNamespaces[i])
  {
    if v.Runner? && nsColumn then
      var ns := v.namespace.value;
      Table(CombineNamespace(header, true, ns, ""),
            seq(|rows|, i requires 0 <= i < |rows| => CombineNamespace(rows[i], false, ns, rowNamespaces[i])))
    else Table(header, rows)
  }

  datatype ServiceAccount = ServiceAccount(
    name: string, namespace: string, secretNames: seq<string>,
    annotations: seq<(string, string)>, age: string)

  datatype Secret = Secret(name: string, namespace: string, secretType: string, dataKeys: seq<string>, age: string)
  datatype ConfigMap = ConfigMap(name: string, namespace: string, dataKeys: seq<string>, age: string)
  /** A Role, RoleBinding, ClusterRole or ClusterRoleBinding: only its name,
      namespace and age are shown. */
  datatype Named = Named(name: string, namespace: string, age: string)

  datatype Pod = Pod(
    name: string, namespace: string, phase: string, containers: seq<ContainerStatus>,
    hostname: string, podIp: string, hostIp: string, nodeName: string, age: string)

  /** The columns of one pod row. */
  function PodColumns(p: Pod, style: TerminatedStyle): (r: seq<string>)
    ensures |r| == 8 && r[0] == p.name && r[6] == p.nodeName
    ensures r[2] == Summary(p.phase, p.containers, style).status
  {
    var s := Summary(p.phase, p.containers, style);
    [p.name, ReadyText(s), s.status, p.hostname, p.podIp, p.hostIp, p.nodeName, p.age]
  }

  function Namespaces<T>(items: seq<T>, ns: T -> string): (r: seq<string>)
    ensures |r| == |items|
  {
    seq(|items|, i requires 0 <= i < |items| => ns(items[i]))
  }

  /** The columns of one service account: name, secret count, the first
      five secret names and the IAM role. */
  function ServiceAccountColumns(sa: ServiceAccount, iamRole: string): (r: seq<string>)
    ensures |r| == 5 && r[0] == sa.name && r[3] == iamRole
    ensures |sa.secretNames| <= MaxInt64 ==> ParseInt(r[1]) == Parsed(|sa.secretNames|)
  {
    CountParses(|sa.secretNames|);
    [sa.name, FormatInt(|sa.secretNames|), Join(sa.secretNames[..Min(5, |sa.secretNames|)], ","), iamRole, sa.age]
  }

  /** The columns of one secret (with its type) or configmap (without). */
  function KeyedColumns(name: string, secretType: Option<string>, keys: seq<string>, age: string): seq<string>
  {
    [name] + (if secretType.Some? then [secretType.value] else [])
      + [FormatInt(|keys|), Join(keys[..Min(5, |keys|)], ","), age]
  }

  /** `render(ServiceAccounts)ListInfo` / `RenderServiceAccountsListInfo`. */
  method RenderServiceAccounts(v: Variant, items: seq<ServiceAccount>) returns (r: Render)
    ensures Stops(v, |items|) <==> r.NotRendered?
    ensures r.Rendered? ==> |r.table.rows| == |items|
    ensures r.Rendered? ==> forall i :: 0 <= i < |items| ==> IamRoleOf(items[i].annotations).Ok?
    ensures r.RenderPanic? ==> exists i :: 0 <= i < |items| && IamRoleOf(items[i].annotations).Panic?
                                           && forall j :: 0 <= j < i ==> IamRoleOf(items[j].annotations).Ok?
    ensures r.Rendered? ==> r.table == Frame(v, true, ["NAME", "SECRET COUNT", "KEYS", "IAM ROLE", "AGE"],
      seq(|items|, i requires 0 <= i < |items| && IamRoleOf(items[i].annotations).Ok? =>
        ServiceAccountColumns(items[i], IamRoleOf(items[i].annotations).value)),
      Namespaces(items, (sa: ServiceAccount) => sa.namespace))
  {
    if Stops(v, |items|) {
      return NotRendered;
    }
    var rows: seq<seq<string>> := [];
    var i := 0;
    while i < |items|
      invariant 0 <= i <= |items|
      invariant |rows| == i
      invariant forall j :: 0 <= j < i ==> IamRoleOf(items[j].annotations).Ok?
      invariant forall j :: 0 <= j < i ==>
        rows[j] == ServiceAccountColumns(items[j], IamRoleOf(items[j].annotations).value)
    {
      var sa := items[i];
      var keyGroups := FirstFive(sa.secretNames);
      var iamRole := IamRole(sa.annotations);
      if !iamRole.Ok? {
        assert IamRoleOf(items[i].annotations).Panic?;
        return RenderPanic(IndexOutOfRange);
      }
      var row := [sa.name, FormatInt(|sa.secretNames|), Join(keyGroups, ","), iamRole.value, sa.age];
      assert row == ServiceAccountColumns(items[i], IamRoleOf(items[i].annotations).value);
      rows := rows + [row];
      i := i + 1;
    }
    r := Rendered(Frame(v, true, ["NAME", "SECRET COUNT", "KEYS", "IAM ROLE", "AGE"], rows,
                        Namespaces(items, (sa: ServiceAccount) => sa.namespace)));
  }

  /** The row of a secret or configmap list: name, [type,] count and the
      first five keys of the map walk. */
  method KeyedRows(names: seq<string>, types: seq<Option<string>>, keys: seq<seq<string>>, ages: seq<string>)
    returns (rows: seq<seq<string>>)
    requires |names| == |types| == |keys| == |ages|
    ensures |rows| == |names|
    ensures forall i :: 0 <= i < |names| ==> rows[i] == KeyedColumns(names[i], types[i], keys[i], ages[i])
  {
    rows := [];
    var i := 0;
    while i < |names|
      invariant 0 <= i <= |names| && |rows| == i
      invariant forall j :: 0 <= j < i ==> rows[j] == KeyedColumns(names[j], types[j], keys[j], ages[j])
    {
      var keyGroups := FirstFive(keys[i]);
      rows := rows + [[names[i]] + (if types[i].Some? then [types[i].value] else [])
                      + [FormatInt(|keys[i]|), Join(keyGroups, ","), ages[i]]];
      i := i + 1;
    }
  }

  /** `render(Secrets)ListInfo` / `RenderSecretsListInfo`; a secret's data
      keys are listed in the order the map walk visits them. */
  method RenderSecrets(v: Variant, items: seq<Secret>) returns (r: Render)
    ensures Stops(v, |items|) <==> r.NotRendered?
    ensures !r.RenderPanic?
    ensures r.Rendered? ==> r.table.header == Frame(v, true, ["Name", "TYPE", "DATA COUNT", "FIRST FIVE KEYS", "AGE"], [], []).header
    ensures r.Rendered? ==> |r.table.rows| == |items|
    ensures r.Rendered? && v.Cmd? ==> forall i :: 0 <= i < |items| ==>
      r.table.rows[i] == KeyedColumns(items[i].name, Some(items[i].secretType), items[i].dataKeys, items[i].age)
    ensures r.Rendered? && v.Runner? ==> forall i :: 0 <= i < |items| ==>
      r.table.rows[i] == CombineNamespace(
        KeyedColumns(items[i].name, Some(items[i].secretType), items[i].dataKeys, items[i].age),
        false, v.namespace.value, items[i].namespace)
  {
    if Stops(v, |items|) {
      return NotRendered;
    }
    var rows := KeyedRows(seq(|items|, i requires 0 <= i < |items| => items[i].name),
                          seq(|items|, i requires 0 <= i < |items| => Some(items[i].secretType)),
                          seq(|items|, i requires 0 <= i < |items| => items[i].dataKeys),
                          seq(|items|, i requires 0 <= i < |items| => items[i].age));
    r := Rendered(Frame(v, true, ["Name", "TYPE", "DATA COUNT", "FIRST FIVE KEYS", "AGE"], rows,
                        Namespaces(items, (s: Secret) => s.namespace)));
  }

  /** `render(ConfigMaps)ListInfo` / `RenderConfigMapsListInfo`. */
  method RenderConfigMaps(v: Variant, items: seq<ConfigMap>) returns (r: Render)
    ensures Stops(v, |items|) <==> r.NotRendered?
    ensures !r.RenderPanic?
    ensures r.Rendered? ==> r.table.header == Frame(v, true, ["Name", "DATA COUNT", "FIRST FIVE KEYS", "AGE"], [], []).header
    ensures r.Rendered? ==> |r.table.rows| == |items|
    ensures r.Rendered? && v.Cmd? ==> forall i :: 0 <= i < |items| ==>
      r.table.rows[i] == KeyedColumns(items[i].name, None, items[i].dataKeys, items[i].age)
    ensures r.Rendered? && v.Runner? ==> forall i :: 0 <= i < |items| ==>
      r.table.rows[i] == CombineNamespace(
        KeyedColumns(items[i].name, None, items[i].dataKeys, items[i].age),
        false, v.namespace.value, items[i].namespace)
  {
    if Stops(v, |items|) {
      return NotRendered;
    }
    var rows := KeyedRows(seq(|items|, i requires 0 <= i < |items| => items[i].name),
                          seq(|items|, i requires 0 <= i < |items| => None),
                          seq(|items|, i requires 0 <= i < |items| => items[i].dataKeys),
                          seq(|items|, i requires 0 <= i < |items| => items[i].age));
    r := Rendered(Frame(v, true, ["Name", "DATA COUNT", "FIRST FIVE KEYS", "AGE"], rows,
                        Namespaces(items, (c: ConfigMap) => c.namespace)));
  }

  /** `render(Roles|RoleBindings|ClusterRoles|ClusterRoleBindings)ListInfo`:
      name and age; only the runner's namespaced kinds add NAMESPACE. The
      runner's cluster-scoped kinds do not resolve the namespace, so they
      are rendered with `Cmd`. */
  function RenderNamed(v: Variant, items: seq<Named>): (r: Render)
    ensures Stops(v, |items|) <==> r.NotRendered?
    ensures r.Rendered? ==> r.table.header == Frame(v, true, ["Name", "AGE"], [], []).header
    ensures r.Rendered? ==> |r.table.rows| == |items|
    ensures r.Rendered? && v.Cmd? ==> forall i :: 0 <= i < |items| ==>
      r.table.rows[i] == [items[i].name, items[i].age]
    ensures r.Rendered? && v.Runner? ==> forall i :: 0 <= i < |items| ==>
      r.table.rows[i] == CombineNamespace([items[i].name, items[i].age], false, v.namespace.value, items[i].namespace)
  {
    if Stops(v, |items|) then NotRendered
    else
      var rows := seq(|items|, i requires 0 <= i < |items| => [items[i].name, items[i].age]);
      Rendered(Frame(v, true, ["Name", "AGE"], rows, Namespaces(items, (n: Named) => n.namespace)))
  }

  /** The pod loop of `render(Pod)ListInfo` / `RenderPodListInfo` and `execGetPod`. */
  method PodRows(pods: seq<Pod>, style: TerminatedStyle) returns (rows: seq<seq<string>>)
    ensures |rows| == |pods|
    ensures forall i :: 0 <= i < |pods| ==> rows[i] == PodColumns(pods[i], style)
  {
    rows := [];
    var i := 0;
    while i < |pods|
      invariant 0 <= i <= |pods| && |rows| == i
      invariant forall j :: 0 <= j < i ==> rows[j] == PodColumns(pods[j], style)
    {
      var p := pods[i];
      var readyCount, totalCount, status := ContainerSummary(p.phase, p.containers, style);
      var row := [p.name, ReadyText(PodSummary(readyCount, totalCount, status)), status,
                  p.hostname, p.podIp, p.hostIp, p.nodeName, p.age];
      assert row == PodColumns(p, style);
      rows := rows + [row];
      i := i + 1;
    }
  }

  /** `render(Pod)ListInfo` / `RenderPodListInfo`. */
  method RenderPods(v: Variant, pods: seq<Pod>) returns (r: Render)
    ensures Stops(v, |pods|) <==> r.NotRendered?
    ensures !r.RenderPanic?
    ensures r.Rendered? ==> r.table == Frame(v, true,
      ["Name", "READY", "STATUS", "Hostname", "Pod IP", "Host IP", "Node", "Age"],
      seq(|pods|, i requires 0 <= i < |pods| => PodColumns(pods[i], ReasonOnly)),
      Namespaces(pods, (p: Pod) => p.namespace))
  {
    if Stops(v, |pods|) {
      return NotRendered;
    }
    var rows := PodRows(pods, ReasonOnly);
    r := Rendered(Frame(v, true, ["Name", "READY", "STATUS", "Hostname", "Pod IP", "Host IP", "Node", "Age"],
                        rows, Namespaces(pods, (p: Pod) => p.namespace)));
  }

  /** `render(Node)ListInfo` / `RenderNodeListInfo`: nodes are cluster-scoped,
      so neither copy resolves the namespace; the runner has VERSION. */
  method RenderNodes(runner: bool, nodes: seq<Node>) returns (r: Render)
    ensures |nodes| == 0 <==> r.NotRendered?
    ensures !r.RenderPanic?
    ensures r.Rendered? && runner ==>
      r.table.header == ["NAME", "STATUS", "INTERNAL-IP", "EXTERNAL-IP", "LABEL", "VERSION", "OS-IMAGE", "AGE"]
    ensures r.Rendered? && !runner ==>
      r.table.header == ["NAME", "STATUS", "INTERNAL-IP", "EXTERNAL-IP", "LABEL", "OS-IMAGE", "AGE"]
    ensures r.Rendered? ==> |r.table.rows| == |nodes|
    ensures r.Rendered? && runner ==> forall i :: 0 <= i < |nodes| ==>
      r.table.rows[i] == RunnerNodeColumns(NodeRowAt(nodes, i))
    ensures r.Rendered? && !runner ==> forall i :: 0 <= i < |nodes| ==>
      r.table.rows[i] == CmdNodeColumns(NodeRowAt(nodes, i))
  {
    if |nodes| == 0 {
      return NotRendered;
    }
    var rows := NodeRows(nodes);
    var header := if runner then ["NAME", "STATUS", "INTERNAL-IP", "EXTERNAL-IP", "LABEL", "VERSION", "OS-IMAGE", "AGE"]
                  else ["NAME", "STATUS", "INTERNAL-IP", "EXTERNAL-IP", "LABEL", "OS-IMAGE", "AGE"];
    r := Rendered(Table(header, seq(|rows|, i requires 0 <= i < |rows| =>
      if runner then RunnerNodeColumns(rows[i]) else CmdNodeColumns(rows[i]))));
  }
}
