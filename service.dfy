/** cmd/kubenx/cmd/service.go: the rows of `get service`. Each service row
    needs a second API call, the pods matching the service's selector; that
    call is an input taking the selector string. The selector map is given
    as its entries in the order the loop visits them. */
module ServiceCmd {

  import opened Wrappers
  import opened GoStrings
  import opened GoStrconv
  import Utils

  datatype ServicePort = ServicePort(port: int32, nodePort: int32)

  datatype Service = Service(
    name: string, serviceType: string, clusterIp: string, externalIps: seq<string>,
    ingressHostnames: seq<string>, ports: seq<ServicePort>, selector: seq<(string, string)>, age: string)

  const ServiceHeader := ["NAME", "TYPE", "CLUSTER-IP", "EXTERNAL-IP", "PORT(S)", "ENDPOINT(S)", "AGE"]
  const NoneText := "<None>"

  /** EXTERNAL-IP: a load balancer's first ingress hostname (indexing an
      empty ingress list panics); otherwise `<None>` without external IPs,
      and empty when there are some. */
  function ExternalIp(s: Service): (r: Outcome<string>)
    ensures r.Ok? || r == Panic(IndexOutOfRange)
    ensures s.serviceType == "LoadBalancer" && |s.ingressHostnames| > 0 ==> r == Ok(s.ingressHostnames[0])
    ensures s.serviceType == "LoadBalancer" && |s.ingressHostnames| == 0 ==> r == Panic(IndexOutOfRange)
    ensures s.serviceType != "LoadBalancer" ==> r == Ok(if |s.externalIps| == 0 then NoneText else "")
  {
    if s.serviceType == "LoadBalancer" then
      if |s.ingressHostnames| == 0 then Panic(IndexOutOfRange) else Ok(s.ingressHostnames[0])
    else if |s.externalIps| == 0 then Ok(NoneText)
    else Ok("")
  }

  /** The two items of one port: its number, then `<nodePort>/TCP`, or
      `/TCP` alone when there is no node port. */
  function PortPair(p: ServicePort): seq<string>
  {
    [Utils.Int32ToString(p.port), if p.nodePort != 0 then Utils.Int32ToString(p.nodePort) + "/TCP" else "/TCP"]
  }

  /** The items of all ports, two per port, in port order. */
  function PortItems(ports: seq<ServicePort>): (r: seq<string>)
    ensures |r| == 2 * |ports|
  {
    if |ports| == 0 then [] else PortItems(ports[..|ports| - 1]) + PortPair(ports[|ports| - 1])
  }

  /** Port `i` gives items `2i` and `2i+1`, in port order. */
  lemma {:induction false} PortItemsPositions(ports: seq<ServicePort>, i: nat)
    requires i < |ports|
    ensures PortItems(ports)[2 * i] == PortPair(ports[i])[0]
    ensures PortItems(ports)[2 * i + 1] == PortPair(ports[i])[1]
  {
    var n := |ports| - 1;
    var prefix := PortItems(ports[..n]);
    var last := PortPair(ports[n]);
    assert PortItems(ports) == prefix + last;
    if i < n {
      PortItemsPositions(ports[..n], i);
      assert ports[..n][i] == ports[i];
      assert (prefix + last)[2 * i] == prefix[2 * i];
      assert (prefix + last)[2 * i + 1] == prefix[2 * i + 1];
    } else {
      assert (prefix + last)[2 * i] == last[0];
      assert (prefix + last)[2 * i + 1] == last[1];
    }
  }

  /** Port `i`'s items: its number, which parses back to it, then `/TCP`
      exactly when it has no node port, and otherwise the node port followed
      by `/TCP`. */
  lemma PortItemsAt(ports: seq<ServicePort>, i: nat)
    requires i < |ports|
    ensures ParseInt(PortItems(ports)[2 * i]) == Parsed(ports[i].port as int)
    ensures PortItems(ports)[2 * i + 1] == "/TCP" <==> ports[i].nodePort == 0
    ensures ports[i].nodePort != 0 ==> PortItems(ports)[2 * i + 1] == Utils.Int32ToString(ports[i].nodePort) + "/TCP"
  {
    PortItemsPositions(ports, i);
    Utils.Int32ToStringParses(ports[i].port);
    var pair := PortPair(ports[i]);
    if ports[i].nodePort != 0 {
      assert |pair[1]| > 4;
    }
  }

  /** The loop over the service's ports. */
  method PortsColumn(ports: seq<ServicePort>) returns (items: seq<string>)
    ensures items == PortItems(ports)
  {
    items := [];
    for i := 0 to |ports|
      invariant items == PortItems(ports[..i])
    {
      assert ports[..i + 1][..i] == ports[..i];
      items := items + [Utils.Int32ToString(ports[i].port)];
      if ports[i].nodePort != 0 {
        items := items + [Utils.Int32ToString(ports[i].nodePort) + "/TCP"];
      } else {
        items := items + ["/TCP"];
      }
    }
    assert ports[..|ports|] == ports;
  }

  /** A port without a node port reads `<port>:/TCP`. */
  lemma PortWithoutNodePort(p: ServicePort)
    requires p.nodePort == 0
    ensures Join(PortItems([p]), ":") == Utils.Int32ToString(p.port) + ":/TCP"
  {
    var items := PortItems([p]);
    assert items == [Utils.Int32ToString(p.port), "/TCP"];
    assert items[1..] == ["/TCP"];
  }

  /** The selector pairs `key=value`, in visiting order. */
  function SelectorPairs(entries: seq<(string, string)>): (r: seq<string>)
    ensures |r| == |entries|
    ensures forall i :: 0 <= i < |entries| ==> r[i] == entries[i].0 + "=" + entries[i].1
  {
    if |entries| == 0 then []
    else
      var n := |entries| - 1;
      assert forall i :: 0 <= i < n ==> entries[..n][i] == entries[i];
      SelectorPairs(entries[..n]) + [entries[n].0 + "=" + entries[n].1]
  }

  /** The loop over the selector map. */
  method LabelSelector(entries: seq<(string, string)>) returns (pairs: seq<string>)
    ensures pairs == SelectorPairs(entries)
  {
    pairs := [];
    for i := 0 to |entries|
      invariant pairs == SelectorPairs(entries[..i])
    {
      assert entries[..i + 1][..i] == entries[..i];
      pairs := pairs + [entries[i].0 + "=" + entries[i].1];
    }
    assert entries[..|entries|] == entries;
  }

  /** The loop over the matched pods: their IPs, in list order. */
  method Endpoints(podIps: seq<string>) returns (endpoints: seq<string>)
    ensures endpoints == podIps
  {
    endpoints := [];
    for i := 0 to |podIps|
      invariant endpoints == podIps[..i]
    {
      assert podIps[..i + 1] == podIps[..i] + [podIps[i]];
      endpoints := endpoints + [podIps[i]];
    }
    assert podIps[..|podIps|] == podIps;
  }

  /** The row of one service, given the pod IPs its selector matches: the
      ports joined by `:`, the endpoints by `,`. A failed pod list is the
      row's error; a panic in EXTERNAL-IP comes first. */
  function ServiceRow(s: Service, podsFor: string -> Outcome<seq<string>>): (r: Outcome<seq<string>>)
    ensures r.Ok? ==> |r.value| == |ServiceHeader|
    ensures r.Ok? ==> ExternalIp(s).Ok? && r.value[3] == ExternalIp(s).value
    ensures ExternalIp(s).Ok? && !r.Ok? ==> r == podsFor(Join(SelectorPairs(s.selector), ","))
  {
    var ext := ExternalIp(s);
    if !ext.Ok? then Propagate(ext)
    else
      var pods := podsFor(Join(SelectorPairs(s.selector), ","));
      if !pods.Ok? then pods
      else Ok(Cells(s, ext.value, pods.value))
  }

  /** The cells of a service's row, given its EXTERNAL-IP and its
      endpoints. */
  function Cells(s: Service, externalIp: string, endpoints: seq<string>): (r: seq<string>)
    ensures |r| == |ServiceHeader|
  {
    [s.name, s.serviceType, s.clusterIp, externalIp, Join(PortItems(s.ports), ":"), Join(endpoints, ","), s.age]
  }

  /** Service `i` is the first whose row fails. */
  predicate FailsFirst(services: seq<Service>, podsFor: string -> Outcome<seq<string>>, i: nat)
  {
    i < |services| && !ServiceRow(services[i], podsFor).Ok?
    && forall j :: 0 <= j < i ==> ServiceRow(services[j], podsFor).Ok?
  }

  /** The first failure within a prefix is the first failure of the list. */
  lemma FailsFirstPrefix(services: seq<Service>, podsFor: string -> Outcome<seq<string>>, n: nat)
    requires n <= |services|
    ensures forall i: nat :: FailsFirst(services[..n], podsFor, i) ==> FailsFirst(services, podsFor, i) && services[..n][i] == services[i]
  {
    assert forall j :: 0 <= j < n ==> services[..n][j] == services[j];
  }

  /** The rows of all services in list order, or the failure of the first
      service whose row fails. */
  function ServiceRows(services: seq<Service>, podsFor: string -> Outcome<seq<string>>): (r: Outcome<seq<seq<string>>>)
    ensures r.Ok? ==> |r.value| == |services|
  {
    if |services| == 0 then Ok([])
    else
      var prefix := ServiceRows(services[..|services| - 1], podsFor);
      if !prefix.Ok? then prefix
      else
        var row := ServiceRow(services[|services| - 1], podsFor);
        if !row.Ok? then Propagate(row) else Ok(prefix.value + [row.value])
  }

  /** The rows are there exactly when every service's row is, and then the
      table holds them in list order. */
  lemma {:induction false} ServiceRowsOk(services: seq<Service>, podsFor: string -> Outcome<seq<string>>)
    ensures ServiceRows(services, podsFor).Ok? <==> forall i :: 0 <= i < |services| ==> ServiceRow(services[i], podsFor).Ok?
    ensures ServiceRows(services, podsFor).Ok? ==>
      forall i :: 0 <= i < |services| ==> ServiceRows(services, podsFor).value[i] == ServiceRow(services[i], podsFor).value
  {
    if |services| > 0 {
      var n := |services| - 1;
      ServiceRowsOk(services[..n], podsFor);
      assert forall i :: 0 <= i < n ==> services[..n][i] == services[i];
      ServiceRowsStep(services, podsFor);
    }
  }

  /** One step of `ServiceRows`: the last service's row is appended to the
      rows of the others, or the first failure is kept. */
  lemma ServiceRowsStep(services: seq<Service>, podsFor: string -> Outcome<seq<string>>)
    requires |services| > 0
    ensures var n := |services| - 1;
      var prefix := ServiceRows(services[..n], podsFor);
      var row := ServiceRow(services[n], podsFor);
      && (ServiceRows(services, podsFor).Ok? <==> prefix.Ok? && row.Ok?)
      && (ServiceRows(services, podsFor).Ok? ==> ServiceRows(services, podsFor).value == prefix.value + [row.value])
  {
  }

  /** A failed listing fails as the first service whose row fails. */
  lemma {:induction false} ServiceRowsFirstFailure(services: seq<Service>, podsFor: string -> Outcome<seq<string>>)
    requires !ServiceRows(services, podsFor).Ok?
    ensures exists i: nat :: FailsFirst(services, podsFor, i) && ServiceRows(services, podsFor) == Propagate(ServiceRow(services[i], podsFor))
  {
    var n := |services| - 1;
    var prefix := ServiceRows(services[..n], podsFor);
    if !prefix.Ok? {
      ServiceRowsFirstFailure(services[..n], podsFor);
      FailsFirstPrefix(services, podsFor, n);
    } else {
      ServiceRowsOk(services[..n], podsFor);
      assert forall i :: 0 <= i < n ==> services[..n][i] == services[i];
      assert FailsFirst(services, podsFor, n);
    }
  }

  /** Once a prefix of the services fails, the whole list fails the same
      way: no later service is looked at. */
  lemma {:induction false} PrefixFailureStops(services: seq<Service>, podsFor: string -> Outcome<seq<string>>, k: nat)
    requires k <= |services|
    requires !ServiceRows(services[..k], podsFor).Ok?
    ensures ServiceRows(services, podsFor) == ServiceRows(services[..k], podsFor)
  {
    if k == |services| {
      assert services[..k] == services;
    } else {
      var n := |services| - 1;
      assert services[..n][..k] == services[..k];
      PrefixFailureStops(services[..n], podsFor, k);
    }
  }

  /** How `execGetService`'s action ends: the lines written to `out`, the
      table when it is rendered, and the result. */
  datatype Listing = Listing(out: seq<string>, table: Option<seq<seq<string>>>, result: Outcome<()>)

  /** `execGetService`'s action: a failed service list is written and
      returned; otherwise the rows of `ServiceRows`, a failed pod list being
      written and returned, an EXTERNAL-IP panic ending the run. */
  method ExecGetService(services: Outcome<seq<Service>>, podsFor: string -> Outcome<seq<string>>) returns (l: Listing)
    requires services.Ok? || services.Err?
    requires forall selector :: podsFor(selector).Ok? || podsFor(selector).Err?
    ensures services.Err? ==> l == Listing([services.error], None, Err(services.error))
    ensures services.Ok? && ServiceRows(services.value, podsFor).Ok? ==>
      l == Listing([], Some(ServiceRows(services.value, podsFor).value), Ok(()))
    ensures services.Ok? && ServiceRows(services.value, podsFor).Err? ==>
      l == Listing([ServiceRows(services.value, podsFor).error], None, Err(ServiceRows(services.value, podsFor).error))
    ensures services.Ok? && ServiceRows(services.value, podsFor).Panic? ==> l == Listing([], None, Panic(IndexOutOfRange))
  {
    if services.Err? {
      return Listing([services.error], None, Err(services.error));
    }
    var items := services.value;
    var rows: seq<seq<string>> := [];
    for i := 0 to |items|
      invariant ServiceRows(items[..i], podsFor) == Ok(rows)
    {
      assert items[..i + 1][..i] == items[..i];
      var s := items[i];
      var ext := ExternalIp(s);
      if ext.Panic? {
        PrefixFailureStops(items, podsFor, i + 1);
        return Listing([], None, Panic(IndexOutOfRange));
      }
      var portItems := PortsColumn(s.ports);
      var selector := LabelSelector(s.selector);
      var pods := podsFor(Join(selector, ","));
      if pods.Err? {
        PrefixFailureStops(items, podsFor, i + 1);
        return Listing([pods.error], None, Err(pods.error));
      }
      var endpoints := Endpoints(pods.value);
      rows := rows + [[s.name, s.serviceType, s.clusterIp, ext.value, Join(portItems, ":"), Join(endpoints, ","), s.age]];
      assert rows[i] == Cells(s, ext.value, pods.value);
    }
    assert items[..|items|] == items;
    return Listing([], Some(rows), Ok(()));
  }
}
