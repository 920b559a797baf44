/** cmd/kubenx/cmd/pod.go: the `get pod` listing, whose STATUS column shows
    a terminated container's exit code, and the pod-name list offered by
    `port-forward`. The pod list is an input (the API call's result); the
    prompt and the tunnel that follow the name list are not modelled. */
module PodCmd {

  import opened Wrappers
  import opened K8sRows

  const NoPodMessage := "No pod exists in the namespace"
  const PodHeader := ["Name", "READY", "STATUS", "HOSTNAME", "POD IP", "HOST IP", "NODE", "AGE"]

  /** What `execGetPod`'s action ends with: the lines written to `out`, the
      table (when one is rendered) and the action's result. */
  datatype Listing = Listing(out: seq<string>, table: Option<Table>, result: Outcome<()>)

  /** `execGetPod`'s action: a list error ends the process; an empty list
      is reported and is not an error; otherwise one row per pod, in list
      order, with the exit code shown for terminated containers. */
  method ExecGetPod(pods: Outcome<seq<Pod>>) returns (l: Listing)
    requires pods.Ok? || pods.Err?
    ensures pods.Err? ==> l == Listing([pods.error], None, Exit(pods.error))
    ensures pods.Ok? && |pods.value| == 0 ==> l == Listing([NoPodMessage], None, Ok(()))
    ensures pods.Ok? && |pods.value| > 0 ==> l.out == [] && l.result == Ok(()) && l.table.Some?
    ensures l.table.Some? ==> l.table.value.header == PodHeader
    ensures l.table.Some? ==> pods.Ok? && |l.table.value.rows| == |pods.value|
    ensures l.table.Some? ==> forall i :: 0 <= i < |pods.value| ==> l.table.value.rows[i] == PodColumns(pods.value[i], ReasonAndExitCode)
  {
    if pods.Err? {
      return Listing([pods.error], None, Exit(pods.error));
    }
    if |pods.value| <= 0 {
      return Listing([NoPodMessage], None, Ok(()));
    }
    var rows := PodRows(pods.value, ReasonAndExitCode);
    return Listing([], Some(Table(PodHeader, rows)), Ok(()));
  }

  /** A pod whose containers are all past the waiting state shows, for a
      terminated last container, `<reason> (Exit Code: <n>)`, and counts
      every container. */
  lemma ExitCodeShown(p: Pod, t: Terminated)
    requires |p.containers| > 0
    requires forall j :: 0 <= j < |p.containers| ==> p.containers[j].state.waiting.None?
    requires p.containers[|p.containers| - 1].state.terminated == Some(t)
    ensures PodColumns(p, ReasonAndExitCode)[2] == t.reason + " (Exit Code: " + Utils.Int32ToString(t.exitCode) + ")"
    ensures Summary(p.phase, p.containers, ReasonAndExitCode).totalCount == |p.containers|
  {
    var cs := p.containers;
    LastShownIsLast(cs, p.phase, ReasonAndExitCode, |cs| - 1);
  }

  /** The two renderings differ only in the STATUS of a terminated
      container: the cmd listing shows the reason alone, `get pod` adds the
      exit code. */
  lemma StylesDifferInStatusOnly(p: Pod)
    ensures |PodColumns(p, ReasonOnly)| == |PodColumns(p, ReasonAndExitCode)| == 8
    ensures forall i :: 0 <= i < 8 && i != 2 ==> PodColumns(p, ReasonOnly)[i] == PodColumns(p, ReasonAndExitCode)[i]
  {
  }

  /** What `execPortForward`'s action has before it prompts: the lines
      written to `out`, the pod names, and the result when it stops. */
  datatype Forward = Forward(out: seq<string>, podNames: seq<string>, result: Option<Outcome<()>>)

  /** `execPortForward` up to the prompt: a list error is written and
      returned; otherwise every pod's name, in list order. */
  method ExecPortForward(pods: Outcome<seq<Pod>>) returns (f: Forward)
    requires pods.Ok? || pods.Err?
    ensures pods.Err? ==> f == Forward([pods.error], [], Some(Err(pods.error)))
    ensures pods.Ok? ==> f.out == [] && f.result.None? && |f.podNames| == |pods.value|
    ensures pods.Ok? ==> forall i :: 0 <= i < |pods.value| ==> f.podNames[i] == pods.value[i].name
  {
    if pods.Err? {
      return Forward([pods.error], [], Some(Err(pods.error)));
    }
    var names: seq<string> := [];
    for i := 0 to |pods.value|
      invariant |names| == i
      invariant forall j :: 0 <= j < i ==> names[j] == pods.value[j].name
    {
      names := names + [pods.value[i].name];
    }
    return Forward([], names, None);
  }
}
