/** cmd/kubenx/cmd/config.go, `deleteClusterConfig`: the selected contexts
    are removed from the loaded kubeconfig together with the cluster and
    the user (auth info) each names. The kubeconfig is an object whose
    three maps the loop updates in place; the entries' contents are opaque
    here, only the names matter. */
module KubeConfig {

  import opened Wrappers
  import opened GoStrings

  /** A context entry: the names of its cluster and of its auth info. */
  datatype Context = Context(cluster: string, authInfo: string)

  /** The three maps of a kubeconfig. */
  datatype Config = Config(clusters: map<string, string>, authInfos: map<string, string>, contexts: map<string, Context>)

  /** What deleting a list of targets ends with: the config, the lines
      written to `out`, and whether a nil context was dereferenced. */
  datatype DeleteRun = DeleteRun(config: Config, messages: seq<string>, panicked: bool)

  function MissingCluster(name: string, file: string): string
  {
    "cannot delete cluster " + name + ", not in " + file
  }

  function MissingAuthInfo(name: string, file: string): string
  {
    "cannot delete auth info " + name + ", not in " + file
  }

  function MissingContext(name: string, file: string): string
  {
    "cannot delete context " + name + ", not in " + file
  }

  /** One turn of the loop. `config.Contexts[target].Cluster` dereferences
      nil for a target that is not (or no longer) a context: a panic. */
  function DeleteOne(c: Config, target: string, file: string): (r: DeleteRun)
    ensures r.panicked <==> target !in c.contexts
    ensures r.panicked ==> r.config == c && r.messages == []
    ensures target !in r.config.contexts
    ensures r.config.contexts.Keys <= c.contexts.Keys && r.config.clusters.Keys <= c.clusters.Keys
      && r.config.authInfos.Keys <= c.authInfos.Keys
  {
    if target !in c.contexts then DeleteRun(c, [], true)
    else
      var cluster := c.contexts[target].cluster;
      var name := c.contexts[target].authInfo;
      var m1 := if cluster in c.clusters then [] else [MissingCluster(cluster, file)];
      var m2 := if name in c.authInfos then [] else [MissingAuthInfo(name, file)];
      var m3 := if target in c.contexts then [] else [MissingContext(target, file)];
      DeleteRun(Config(c.clusters - {cluster}, c.authInfos - {name}, c.contexts - {target}), m1 + m2 + m3, false)
  }

  /** The loop over the targets, stopping at a panic. */
  function DeleteAll(c: Config, targets: seq<string>, file: string): (r: DeleteRun)
    ensures r.config.contexts.Keys <= c.contexts.Keys && r.config.clusters.Keys <= c.clusters.Keys
      && r.config.authInfos.Keys <= c.authInfos.Keys
    ensures !r.panicked ==> forall i :: 0 <= i < |targets| ==> targets[i] !in r.config.contexts
  {
    if |targets| == 0 then DeleteRun(c, [], false)
    else
      var r := DeleteAll(c, targets[..|targets| - 1], file);
      if r.panicked then r
      else
        var s := DeleteOne(r.config, targets[|targets| - 1], file);
        DeleteRun(s.config, r.messages + s.messages, s.panicked)
  }

  /** A present target loses its context, its cluster and its auth info,
      and only an absent cluster or auth info is reported. */
  lemma DeleteOnePresent(c: Config, target: string, file: string)
    requires target in c.contexts
    ensures var r := DeleteOne(c, target, file);
      var ctx := c.contexts[target];
      && !r.panicked
      && r.config.contexts == c.contexts - {target}
      && r.config.clusters == c.clusters - {ctx.cluster}
      && r.config.authInfos == c.authInfos - {ctx.authInfo}
      && (MissingCluster(ctx.cluster, file) in r.messages <==> ctx.cluster !in c.clusters)
      && (MissingAuthInfo(ctx.authInfo, file) in r.messages <==> ctx.authInfo !in c.authInfos)
      && |r.messages| <= 2
  {
    var ctx := c.contexts[target];
    MessagesDiffer(ctx.cluster, ctx.authInfo, file);
  }

  lemma MessagesDiffer(cluster: string, name: string, file: string)
    ensures MissingCluster(cluster, file) != MissingAuthInfo(name, file)
  {
    assert MissingCluster(cluster, file)[14] == 'c';
    assert MissingAuthInfo(name, file)[14] == 'a';
  }

  /** Every message of the loop is about a cluster or an auth info:
      "cannot delete context" is never written, because a missing context
      panics before its presence check. */
  lemma {:induction false} NoMissingContextMessage(c: Config, targets: seq<string>, file: string)
    ensures forall m :: m in DeleteAll(c, targets, file).messages ==>
      HasPrefix(m, "cannot delete cluster ") || HasPrefix(m, "cannot delete auth info ")
  {
    if |targets| > 0 {
      NoMissingContextMessage(c, targets[..|targets| - 1], file);
      var r := DeleteAll(c, targets[..|targets| - 1], file);
      var t := targets[|targets| - 1];
      if !r.panicked && t in r.config.contexts {
        var ctx := r.config.contexts[t];
        assert HasPrefix(MissingCluster(ctx.cluster, file), "cannot delete cluster ");
        assert HasPrefix(MissingAuthInfo(ctx.authInfo, file), "cannot delete auth info ");
      }
    }
  }

  predicate Distinct(targets: seq<string>)
  {
    forall i, j :: 0 <= i < j < |targets| ==> targets[i] != targets[j]
  }

  /** Some target's context names the cluster `k`. */
  predicate NamesCluster(c: Config, targets: seq<string>, k: string)
  {
    exists i :: 0 <= i < |targets| && targets[i] in c.contexts && c.contexts[targets[i]].cluster == k
  }

  /** Some target's context names the auth info `k`. */
  predicate NamesAuthInfo(c: Config, targets: seq<string>, k: string)
  {
    exists i :: 0 <= i < |targets| && targets[i] in c.contexts && c.contexts[targets[i]].authInfo == k
  }

  /** With distinct targets that are all contexts, the loop does not panic;
      the targets' contexts, clusters and auth infos are gone, and every
      other entry is unchanged. */
  lemma {:induction false} DeleteAllDistinct(c: Config, targets: seq<string>, file: string)
    requires Distinct(targets)
    requires forall i :: 0 <= i < |targets| ==> targets[i] in c.contexts
    ensures !DeleteAll(c, targets, file).panicked
    ensures var r := DeleteAll(c, targets, file).config;
      forall k :: k in r.contexts <==> k in c.contexts && k !in targets
    ensures var r := DeleteAll(c, targets, file).config;
      forall k :: k in r.contexts ==> r.contexts[k] == c.contexts[k]
    ensures var r := DeleteAll(c, targets, file).config;
      forall k :: k in r.clusters <==> k in c.clusters && !NamesCluster(c, targets, k)
    ensures var r := DeleteAll(c, targets, file).config;
      forall k :: k in r.clusters ==> r.clusters[k] == c.clusters[k]
    ensures var r := DeleteAll(c, targets, file).config;
      forall k :: k in r.authInfos <==> k in c.authInfos && !NamesAuthInfo(c, targets, k)
    ensures var r := DeleteAll(c, targets, file).config;
      forall k :: k in r.authInfos ==> r.authInfos[k] == c.authInfos[k]
  {
    if |targets| > 0 {
      var n := |targets| - 1;
      var p := targets[..n];
      var t := targets[n];
      assert forall i :: 0 <= i < |p| ==> p[i] == targets[i];
      DeleteAllDistinct(c, p, file);
      var r := DeleteAll(c, p, file).config;
      assert t !in p;
      assert forall k :: k in targets <==> k in p || k == t;
      var ctx := c.contexts[t];
      assert forall k :: NamesCluster(c, targets, k) <==> NamesCluster(c, p, k) || k == ctx.cluster;
      assert forall k :: NamesAuthInfo(c, targets, k) <==> NamesAuthInfo(c, p, k) || k == ctx.authInfo;
    }
  }

  /** A target that is not a context panics the loop. */
  lemma MissingTargetPanics(c: Config, target: string, file: string)
    requires target !in c.contexts
    ensures DeleteAll(c, [target], file).panicked
  {
    assert [target][..0] == [];
  }

  /** The same target twice panics on its second turn. */
  lemma RepeatedTargetPanics(c: Config, target: string, file: string)
    requires target in c.contexts
    ensures DeleteAll(c, [target, target], file).panicked
  {
    assert [target, target][..1] == [target];
    assert [target][..0] == [];
  }

  /** Two contexts that share a cluster: the second reports it missing. */
  lemma SharedClusterReported(c: Config, a: string, b: string, file: string)
    requires a != b && a in c.contexts && b in c.contexts
    requires c.contexts[a].cluster == c.contexts[b].cluster
    ensures MissingCluster(c.contexts[a].cluster, file) in DeleteAll(c, [a, b], file).messages
  {
    assert [a, b][..1] == [a];
    assert [a][..0] == [];
    assert DeleteAll(c, [], file) == DeleteRun(c, [], false);
    var s1 := DeleteOne(c, a, file);
    var r := DeleteAll(c, [a], file);
    assert r == DeleteRun(s1.config, [] + s1.messages, false);
    assert b in r.config.contexts && r.config.contexts[b] == c.contexts[b];
    assert c.contexts[a].cluster !in r.config.clusters;
    var s2 := DeleteOne(r.config, b, file);
    assert MissingCluster(c.contexts[a].cluster, file) in s2.messages;
    assert DeleteAll(c, [a, b], file).messages == r.messages + s2.messages;
  }

  /** The file named in the messages: the explicit file when one was given. */
  function ConfigFile(explicitFile: Option<string>, defaultFile: string): (f: string)
    ensures explicitFile.Some? ==> f == explicitFile.value
    ensures explicitFile.None? ==> f == defaultFile
  {
    match explicitFile
    case Some(e) => e
    case None => defaultFile
  }

  /** The target list: the interactive selection without arguments; with
      positional arguments the list stays empty (the arguments are never
      read). */
  function TargetContexts(args: seq<string>, selection: seq<string>): (t: seq<string>)
    ensures |args| > 0 ==> t == []
    ensures |args| == 0 ==> t == selection
  {
    if |args| == 0 then selection else []
  }

  /** The loaded kubeconfig whose maps the deletion loop edits. */
  class KubeConfigFile {
    var clusters: map<string, string>
    var authInfos: map<string, string>
    var contexts: map<string, Context>

    constructor(c: Config)
      ensures State() == c
    {
      clusters, authInfos, contexts := c.clusters, c.authInfos, c.contexts;
    }

    function State(): Config
      reads this
    {
      Config(clusters, authInfos, contexts)
    }

    /** The loop of `deleteClusterConfig` over the targets. */
    method DeleteContexts(targets: seq<string>, file: string) returns (messages: seq<string>, panicked: bool)
      modifies this
      ensures DeleteRun(State(), messages, panicked) == DeleteAll(old(State()), targets, file)
    {
      messages, panicked := [], false;
      var i := 0;
      while i < |targets|
        invariant 0 <= i <= |targets|
        invariant DeleteRun(State(), messages, false) == DeleteAll(old(State()), targets[..i], file)
      {
        assert targets[..i + 1][..i] == targets[..i];
        var lines;
        lines, panicked := DeleteContext(targets[i], file);
        messages := messages + lines;
        if panicked {
          PanicStops(old(State()), targets, i + 1, file);
          return;
        }
        i := i + 1;
      }
      assert targets[..i] == targets;
    }

    /** One turn of the loop: the target's cluster, auth info and context
        are removed, each reported when it is already missing. */
    method DeleteContext(target: string, file: string) returns (messages: seq<string>, panicked: bool)
      modifies this
      ensures DeleteRun(State(), messages, panicked) == DeleteOne(old(State()), target, file)
    {
      if target !in contexts {
        return [], true;
      }
      messages := [];
      var cluster := contexts[target].cluster;
      var name := contexts[target].authInfo;
      if cluster !in clusters {
        messages := messages + [MissingCluster(cluster, file)];
      } else {
        clusters := clusters - {cluster};
      }
      if name !in authInfos {
        messages := messages + [MissingAuthInfo(name, file)];
      } else {
        authInfos := authInfos - {name};
      }
      if target !in contexts {
        messages := messages + [MissingContext(target, file)];
      } else {
        contexts := contexts - {target};
      }
      panicked := false;
    }

    /** `deleteClusterConfig` after loading: the lines written to `out`,
        whether `ModifyConfig` was called, and how the call ends. */
    method DeleteClusterConfig(
      explicitFile: Option<string>, defaultFile: string, args: seq<string>, selection: seq<string>,
      modifyError: Option<string>)
      returns (out: seq<string>, written: bool, result: Outcome<()>)
      modifies this
      ensures var targets := TargetContexts(args, selection);
        |args| == 0 && |selection| == 0 ==>
          out == ["No context has been selected"] && !written && result == Ok(()) && State() == old(State())
      ensures var targets := TargetContexts(args, selection);
        var file := ConfigFile(explicitFile, defaultFile);
        var run := DeleteAll(old(State()), targets, file);
        (|args| > 0 || |selection| > 0) ==>
          && State() == run.config
          && (run.panicked ==> result.Panic? && out == run.messages && !written)
          && (!run.panicked ==> written)
          && (!run.panicked && modifyError.Some? ==> result == Err(modifyError.value) && out == run.messages)
          && (!run.panicked && modifyError.None? ==>
               result == Ok(()) && out == run.messages + ["Deleted context " + Join(targets, ",") + " from " + file + "\n"])
    {
      var configFile := ConfigFile(explicitFile, defaultFile);
      var targetContexts := [];
      if |args| == 0 {
        targetContexts := selection;
        if |targetContexts| == 0 {
          return ["No context has been selected"], false, Ok(());
        }
      }
      var messages, panicked := DeleteContexts(targetContexts, configFile);
      out := messages;
      if panicked {
        return out, false, Panic(NilDereference);
      }
      written := true;
      if modifyError.Some? {
        return out, written, Err(modifyError.value);
      }
      out := out + ["Deleted context " + Join(targetContexts, ",") + " from " + configFile + "\n"];
      result := Ok(());
    }
  }

  /** After a panic the remaining targets are not visited. */
  lemma {:induction false} PanicStops(c: Config, targets: seq<string>, k: nat, file: string)
    requires k <= |targets| && DeleteAll(c, targets[..k], file).panicked
    ensures DeleteAll(c, targets, file) == DeleteAll(c, targets[..k], file)
  {
    if k < |targets| {
      var p := targets[..|targets| - 1];
      assert p[..k] == targets[..k];
      PanicStops(c, p, k, file);
    } else {
      assert targets[..k] == targets;
    }
  }
}
