/** cmd/kubenx/cmd/ingress.go: the rows of `get ingress`. Only the first
    rule of an ingress is shown; an ingress without rules, or whose first
    rule has no HTTP block, makes the command panic. */
module IngressCmd {

  import opened Wrappers
  import opened GoStrings
  import opened GoStrconv
  import Utils

  /** One HTTP path of a rule and its backend. */
  datatype IngressPath = IngressPath(path: string, serviceName: string, servicePort: int32)

  /** A rule: its host and its HTTP block, which may be absent. */
  datatype Rule = Rule(host: string, http: Option<seq<IngressPath>>)

  datatype Ingress = Ingress(name: string, loadBalancerHostnames: seq<string>, rules: seq<Rule>, age: string)

  const IngressHeader := ["Name", "HOST", "ADDRESS", "PATH", "PORTS", "TARGET SERVICE", "AGE"]

  /** ADDRESS: the first load-balancer hostname, or empty when there is none. */
  function Address(ing: Ingress): (r: string)
    ensures |ing.loadBalancerHostnames| == 0 ==> r == ""
    ensures |ing.loadBalancerHostnames| > 0 ==> r == ing.loadBalancerHostnames[0]
  {
    if |ing.loadBalancerHostnames| == 0 then "" else ing.loadBalancerHostnames[0]
  }

  /** HOST: the first rule's host, `*` when it is empty. */
  function Host(rule: Rule): (r: string)
    ensures r != ""
    ensures rule.host != "" ==> r == rule.host
    ensures rule.host == "" ==> r == "*"
  {
    if |rule.host| <= 0 then "*" else rule.host
  }

  /** PATH: the paths, in order. */
  function PathTexts(paths: seq<IngressPath>): (r: seq<string>)
    ensures |r| == |paths|
    ensures forall i :: 0 <= i < |paths| ==> r[i] == paths[i].path
  {
    if |paths| == 0 then []
    else
      var n := |paths| - 1;
      assert forall i :: 0 <= i < n ==> paths[..n][i] == paths[i];
      PathTexts(paths[..n]) + [paths[n].path]
  }

  /** TARGET SERVICE: the backend services, in order. */
  function ServiceNames(paths: seq<IngressPath>): (r: seq<string>)
    ensures |r| == |paths|
    ensures forall i :: 0 <= i < |paths| ==> r[i] == paths[i].serviceName
  {
    if |paths| == 0 then []
    else
      var n := |paths| - 1;
      assert forall i :: 0 <= i < n ==> paths[..n][i] == paths[i];
      ServiceNames(paths[..n]) + [paths[n].serviceName]
  }

  /** The backend ports that are set, in path order; a port of zero (a
      port given by name) is skipped. */
  function SetPorts(paths: seq<IngressPath>): (r: seq<int32>)
    ensures |r| <= |paths|
    ensures forall k :: 0 <= k < |r| ==> r[k] != 0
  {
    if |paths| == 0 then []
    else
      var n := |paths| - 1;
      SetPorts(paths[..n]) + (if paths[n].servicePort != 0 then [paths[n].servicePort] else [])
  }

  /** PORTS: the decimal rendering of each set port, in order. */
  function NonZeroPorts(paths: seq<IngressPath>): (r: seq<string>)
    ensures |r| == |SetPorts(paths)|
    ensures forall k :: 0 <= k < |r| ==> r[k] == Utils.Int32ToString(SetPorts(paths)[k])
  {
    if |paths| == 0 then []
    else
      var n := |paths| - 1;
      var prefix := NonZeroPorts(paths[..n]);
      if paths[n].servicePort != 0 then prefix + [Utils.Int32ToString(paths[n].servicePort)] else prefix
  }

  /** Every PORTS item is a decimal number that parses back to a set, hence
      non-zero, port. */
  lemma NonZeroPortsParse(paths: seq<IngressPath>)
    ensures forall k :: 0 <= k < |NonZeroPorts(paths)| ==>
      ParseInt(NonZeroPorts(paths)[k]) == Parsed(SetPorts(paths)[k] as int) && SetPorts(paths)[k] != 0
  {
    forall k | 0 <= k < |NonZeroPorts(paths)|
      ensures ParseInt(NonZeroPorts(paths)[k]) == Parsed(SetPorts(paths)[k] as int)
    {
      Utils.Int32ToStringParses(SetPorts(paths)[k]);
    }
  }

  /** When every backend port is set, the set ports are all the paths'
      ports, in order, so the PORTS column has one item per path. */
  lemma {:induction false} AllPortsShown(paths: seq<IngressPath>)
    requires forall i :: 0 <= i < |paths| ==> paths[i].servicePort != 0
    ensures |SetPorts(paths)| == |paths|
    ensures forall i :: 0 <= i < |paths| ==> SetPorts(paths)[i] == paths[i].servicePort
  {
    if |paths| > 0 {
      var n := |paths| - 1;
      assert forall i :: 0 <= i < n ==> paths[..n][i] == paths[i];
      AllPortsShown(paths[..n]);
    }
  }

  /** When no backend port is set, the PORTS column is empty. */
  lemma {:induction false} NamedPortsHidden(paths: seq<IngressPath>)
    requires forall i :: 0 <= i < |paths| ==> paths[i].servicePort == 0
    ensures SetPorts(paths) == [] && NonZeroPorts(paths) == []
  {
    if |paths| > 0 {
      var n := |paths| - 1;
      assert forall i :: 0 <= i < n ==> paths[..n][i] == paths[i];
      NamedPortsHidden(paths[..n]);
    }
  }

  /** The loop over the first rule's paths, filling the three columns. */
  method BackendColumns(paths: seq<IngressPath>) returns (port: seq<string>, service: seq<string>, pathTexts: seq<string>)
    ensures port == NonZeroPorts(paths)
    ensures service == ServiceNames(paths)
    ensures pathTexts == PathTexts(paths)
  {
    port, service, pathTexts := [], [], [];
    for i := 0 to |paths|
      invariant port == NonZeroPorts(paths[..i])
      invariant service == ServiceNames(paths[..i])
      invariant pathTexts == PathTexts(paths[..i])
    {
      assert paths[..i + 1][..i] == paths[..i];
      if paths[i].servicePort != 0 {
        port := port + [Utils.Int32ToString(paths[i].servicePort)];
      }
      service := service + [paths[i].serviceName];
      pathTexts := pathTexts + [paths[i].path];
    }
    assert paths[..|paths|] == paths;
  }

  /** The cells of an ingress's row, given its first rule's paths. */
  function Cells(ing: Ingress, rule: Rule, paths: seq<IngressPath>): (r: seq<string>)
    ensures |r| == |IngressHeader|
  {
    [ing.name, Host(rule), Address(ing), Join(PathTexts(paths), ","), Join(NonZeroPorts(paths), ","),
     Join(ServiceNames(paths), ","), ing.age]
  }

  /** The row of one ingress: indexing an empty rule list panics, and so
      does reading the paths of an absent HTTP block. */
  function IngressRow(ing: Ingress): (r: Outcome<seq<string>>)
    ensures r.Ok? || r == Panic(IndexOutOfRange) || r == Panic(NilDereference)
    ensures r == Panic(IndexOutOfRange) <==> |ing.rules| == 0
    ensures r == Panic(NilDereference) <==> |ing.rules| > 0 && ing.rules[0].http.None?
  {
    if |ing.rules| == 0 then Panic(IndexOutOfRange)
    else if ing.rules[0].http.None? then
      assert |IndexOutOfRange| != |NilDereference|;
      Panic(NilDereference)
    else Ok(Cells(ing, ing.rules[0], ing.rules[0].http.value))
  }

  /** The rows of all ingresses in list order, or the panic of the first
      ingress whose row panics. */
  function IngressRows(ingresses: seq<Ingress>): (r: Outcome<seq<seq<string>>>)
    ensures r.Ok? ==> |r.value| == |ingresses|
  {
    if |ingresses| == 0 then Ok([])
    else
      var prefix := IngressRows(ingresses[..|ingresses| - 1]);
      if !prefix.Ok? then prefix
      else
        var row := IngressRow(ingresses[|ingresses| - 1]);
        if !row.Ok? then Propagate(row) else Ok(prefix.value + [row.value])
  }

  /** Ingress `i` is the first whose row panics. */
  predicate PanicsFirst(ingresses: seq<Ingress>, i: nat)
  {
    i < |ingresses| && !IngressRow(ingresses[i]).Ok?
    && forall j :: 0 <= j < i ==> IngressRow(ingresses[j]).Ok?
  }

  /** The rows are there exactly when every ingress's row is (which is when
      its first rule exists and has an HTTP block), and then they are the
      ingresses' rows in order. */
  lemma {:induction false} IngressRowsOk(ingresses: seq<Ingress>)
    ensures IngressRows(ingresses).Ok? <==> forall i :: 0 <= i < |ingresses| ==> IngressRow(ingresses[i]).Ok?
    ensures IngressRows(ingresses).Ok? ==>
      forall i :: 0 <= i < |ingresses| ==> IngressRows(ingresses).value[i] == IngressRow(ingresses[i]).value
  {
    if |ingresses| > 0 {
      var n := |ingresses| - 1;
      var prefix := IngressRows(ingresses[..n]);
      var row := IngressRow(ingresses[n]);
      IngressRowsOk(ingresses[..n]);
      assert forall i :: 0 <= i < n ==> ingresses[..n][i] == ingresses[i];
      if prefix.Ok? && row.Ok? {
        assert IngressRows(ingresses) == Ok(prefix.value + [row.value]);
      } else if prefix.Ok? {
        assert !IngressRows(ingresses).Ok?;
      } else {
        assert !IngressRows(ingresses).Ok?;
        assert exists i :: 0 <= i < n && !IngressRow(ingresses[i]).Ok?;
      }
    }
  }

  /** A failed listing panics as the first ingress whose row panics. */
  lemma {:induction false} IngressRowsFirstPanic(ingresses: seq<Ingress>)
    requires !IngressRows(ingresses).Ok?
    ensures exists i: nat :: PanicsFirst(ingresses, i) && IngressRows(ingresses) == Propagate(IngressRow(ingresses[i]))
  {
    var n := |ingresses| - 1;
    assert forall j :: 0 <= j < n ==> ingresses[..n][j] == ingresses[j];
    if !IngressRows(ingresses[..n]).Ok? {
      IngressRowsFirstPanic(ingresses[..n]);
      var i: nat :| PanicsFirst(ingresses[..n], i) && IngressRows(ingresses[..n]) == Propagate(IngressRow(ingresses[..n][i]));
      assert PanicsFirst(ingresses, i);
    } else {
      IngressRowsOk(ingresses[..n]);
      assert PanicsFirst(ingresses, n);
    }
  }

  /** Once a prefix of the ingresses panics, the whole listing panics the
      same way. */
  lemma {:induction false} PrefixPanicStops(ingresses: seq<Ingress>, k: nat)
    requires k <= |ingresses|
    requires !IngressRows(ingresses[..k]).Ok?
    ensures IngressRows(ingresses) == IngressRows(ingresses[..k])
  {
    if k == |ingresses| {
      assert ingresses[..k] == ingresses;
    } else {
      var n := |ingresses| - 1;
      assert ingresses[..n][..k] == ingresses[..k];
      PrefixPanicStops(ingresses[..n], k);
    }
  }

  /** How `execGetIngress`'s action ends: the lines written to `out`, the
      table when it is rendered, and the result. */
  datatype Listing = Listing(out: seq<string>, table: Option<seq<seq<string>>>, result: Outcome<()>)

  /** `execGetIngress`'s action: a failed list is written and returned;
      otherwise the rows of `IngressRows`, or its panic. */
  method ExecGetIngress(ingresses: Outcome<seq<Ingress>>) returns (l: Listing)
    requires ingresses.Ok? || ingresses.Err?
    ensures ingresses.Err? ==> l == Listing([ingresses.error], None, Err(ingresses.error))
    ensures ingresses.Ok? && IngressRows(ingresses.value).Ok? ==>
      l == Listing([], Some(IngressRows(ingresses.value).value), Ok(()))
    ensures ingresses.Ok? && !IngressRows(ingresses.value).Ok? ==>
      l == Listing([], None, Propagate(IngressRows(ingresses.value)))
  {
    if ingresses.Err? {
      return Listing([ingresses.error], None, Err(ingresses.error));
    }
    var items := ingresses.value;
    var rows: seq<seq<string>> := [];
    for i := 0 to |items|
      invariant IngressRows(items[..i]) == Ok(rows)
    {
      assert items[..i + 1][..i] == items[..i];
      var ing := items[i];
      if |ing.rules| == 0 {
        PrefixPanicStops(items, i + 1);
        return Listing([], None, Panic(IndexOutOfRange));
      }
      var host := ing.rules[0].host;
      if |host| <= 0 {
        host := "*";
      }
      if ing.rules[0].http.None? {
        PrefixPanicStops(items, i + 1);
        return Listing([], None, Panic(NilDereference));
      }
      var port, service, pathTexts := BackendColumns(ing.rules[0].http.value);
      rows := rows + [[ing.name, host, Address(ing), Join(pathTexts, ","), Join(port, ","), Join(service, ","), ing.age]];
      assert rows[i] == Cells(ing, ing.rules[0], ing.rules[0].http.value);
    }
    assert items[..|items|] == items;
    return Listing([], Some(rows), Ok(()));
  }
}
