/** cmd/kubenx/cmd/executor.go and cmd/kubenx/cmd/cmd.go: how a command
    gets its executor (the REST config, the two Kubernetes clients and the
    namespace to work in), how the command's action is run with it, and how
    an error is dropped when the command's context was cancelled. The
    namespace resolution is shared with `GetNamespace` in
    pkg/runner/internal_k8s.go. The configuration loaders, the client
    constructors and the kubeconfig's current namespace are inputs. */
module Executor {

  import opened Wrappers

  // ------------------------------------------------------------ cancellation

  /** What `ctx.Err()` reports. */
  datatype CtxState = Active | Canceled | DeadlineExceeded

  /** `alwaysSucceedWhenCancelled`: an error is dropped when, and only when,
      the context was cancelled; a missed deadline is not a cancellation. */
  function AlwaysSucceedWhenCancelled(ctx: CtxState, err: Option<string>): (r: Option<string>)
    ensures err.None? ==> r.None?
    ensures ctx == Canceled ==> r.None?
    ensures ctx != Canceled ==> r == err
    ensures r.Some? ==> r == err
  {
    if err.Some? && ctx == Canceled then None else err
  }

  /** Filtering twice is filtering once. */
  lemma AlwaysSucceedIdempotent(ctx: CtxState, err: Option<string>)
    ensures AlwaysSucceedWhenCancelled(ctx, AlwaysSucceedWhenCancelled(ctx, err)) == AlwaysSucceedWhenCancelled(ctx, err)
  {
  }

  // ------------------------------------------------------------ namespace

  /** The namespace: the `namespace` flag when it is set, else the
      kubeconfig's current namespace (whose lookup may fail), and `""` (all
      namespaces) whenever `all` is set and the lookup did not fail. */
  function ResolveNamespace(all: bool, namespaceFlag: string, current: Outcome<string>): (r: Outcome<string>)
    requires current.Ok? || current.Err?
    ensures r.Ok? || r.Err?
    ensures namespaceFlag != "" ==> r == Ok(if all then "" else namespaceFlag)
    ensures namespaceFlag == "" && current.Err? ==> r == current
    ensures namespaceFlag == "" && current.Ok? ==> r == Ok(if all then "" else current.value)
    ensures all && r.Ok? ==> r.value == ""
  {
    var ns := if |namespaceFlag| <= 0 then current else Ok(namespaceFlag);
    if ns.Ok? && all && ns.value != "" then Ok("") else ns
  }

  /** An explicit flag is used without consulting the kubeconfig: the
      result does not depend on the current namespace or its lookup. */
  lemma FlagIgnoresKubeconfig(all: bool, namespaceFlag: string, c1: Outcome<string>, c2: Outcome<string>)
    requires namespaceFlag != ""
    requires (c1.Ok? || c1.Err?) && (c2.Ok? || c2.Err?)
    ensures ResolveNamespace(all, namespaceFlag, c1) == ResolveNamespace(all, namespaceFlag, c2)
  {
  }

  // ------------------------------------------------------------ executor

  /** `Executor`, reduced to what is decided here: the REST config handle,
      whether each client was built, and the namespace. */
  datatype Executor = Executor(config: Option<string>, client: bool, betaV1Client: bool, namespace: string)

  /** What the steps of `createNewExecutor` meet: the config from the
      flags and its error, each client constructor's error, the two flags,
      and the kubeconfig's current namespace. */
  datatype Env = Env(config: string, configError: Option<string>, clientError: Option<string>, betaError: Option<string>,
                     all: bool, namespaceFlag: string, current: Outcome<string>)
  {
    predicate Valid()
    {
      current.Ok? || current.Err?
    }
  }

  /** The first failing step of `createNewExecutor`, if any; the kubeconfig
      lookup is a step only when the namespace flag is empty. */
  function CreationError(env: Env): Option<string>
    requires env.Valid()
  {
    if env.configError.Some? then env.configError
    else if env.clientError.Some? then env.clientError
    else if env.betaError.Some? then env.betaError
    else if env.namespaceFlag == "" && env.current.Err? then Some(env.current.error)
    else None
  }

  /** `createNewExecutor`: the config is stored before its error is
      checked; each later step stops at its error, returning the executor
      filled so far; the namespace is the resolved one. */
  method CreateNewExecutor(env: Env) returns (e: Executor, err: Option<string>)
    requires env.Valid()
    ensures err == CreationError(env)
    ensures e.config == Some(env.config)
    ensures e.client <==> env.configError.None? && env.clientError.None?
    ensures e.betaV1Client <==> env.configError.None? && env.clientError.None? && env.betaError.None?
    ensures err.None? ==> Ok(e.namespace) == ResolveNamespace(env.all, env.namespaceFlag, env.current)
    ensures err.Some? ==> e.namespace == ""
  {
    e := Executor(None, false, false, "");
    e := e.(config := Some(env.config));
    if env.configError.Some? {
      return e, env.configError;
    }
    if env.clientError.Some? {
      return e, env.clientError;
    }
    e := e.(client := true);
    if env.betaError.Some? {
      return e, env.betaError;
    }
    e := e.(betaV1Client := true);
    var namespace := env.namespaceFlag;
    if |namespace| <= 0 {
      if env.current.Err? {
        return e, Some(env.current.error);
      }
      namespace := env.current.value;
    }
    if env.all && namespace != "" {
      namespace := "";
    }
    e := e.(namespace := namespace);
    return e, None;
  }

  /** `runExecutor`: a creation error is returned as it is and the action
      is not run; otherwise the action runs with the executor and its error
      passes through `alwaysSucceedWhenCancelled`. `ran` is the executor the
      action was given. */
  method RunExecutor(ctx: CtxState, env: Env, action: Executor -> Option<string>)
    returns (err: Option<string>, ran: Option<Executor>)
    requires env.Valid()
    ensures CreationError(env).Some? ==> err == CreationError(env) && ran.None?
    ensures CreationError(env).None? ==> ran.Some? && err == AlwaysSucceedWhenCancelled(ctx, action(ran.value))
    ensures ran.Some? ==> Ok(ran.value.namespace) == ResolveNamespace(env.all, env.namespaceFlag, env.current)
    ensures ran.Some? ==> ran.value.client && ran.value.betaV1Client && ran.value.config == Some(env.config)
  {
    var e, createErr := CreateNewExecutor(env);
    if createErr.Some? {
      return createErr, None;
    }
    var actionErr := action(e);
    return AlwaysSucceedWhenCancelled(ctx, actionErr), Some(e);
  }

  /** `GetNamespace` in pkg/runner/internal_k8s.go: the same resolution,
      with `""` returned beside a failed lookup. */
  function GetNamespace(all: bool, namespaceFlag: string, current: Outcome<string>): (r: (string, Option<string>))
    requires current.Ok? || current.Err?
    ensures r.1.None? <==> ResolveNamespace(all, namespaceFlag, current).Ok?
    ensures r.1.None? ==> r.0 == ResolveNamespace(all, namespaceFlag, current).value
    ensures r.1.Some? ==> r.0 == "" && r.1 == Some(current.error)
  {
    var ns := ResolveNamespace(all, namespaceFlag, current);
    if ns.Ok? then (ns.value, None) else ("", Some(ns.error))
  }
}
