/** cmd/kubenx/cmd/flags.go: the registry of shared command-line flags, the
    memoised construction of a flag object, and the attachment of registry
    flags to the subcommands whose name a flag lists. The reflective call
    that builds the flag set is replaced by the argument list it is given;
    a command is reduced to its name and its persistent flags. */
module Flags {

  /** The `Value` and `DefValue` of a flag: a string or a boolean. */
  datatype FlagValue = Str(s: string) | Bool(b: bool)

  /** The fields of a `Flag` other than the memo. */
  datatype FlagDef = FlagDef(name: string, shorthand: string, usage: string, value: FlagValue,
                             defValue: FlagValue, flagAddMethod: string, definedOn: seq<string>, hidden: bool)

  /** One argument handed to the `FlagSet` method named by `FlagAddMethod`. */
  datatype FlagArg = ValueArg(value: FlagValue) | NameArg(name: string) | DefaultArg(defValue: FlagValue) | UsageArg(usage: string)

  const NamespaceFlag := FlagDef("namespace", "n", "Run deployments in the specified namespace", Str(""), Str(""), "StringVar",
    ["pod", "deployment", "service", "serviceaccount", "configmap", "ingress", "role", "rolebinding", "secret"], false)
  const RegionFlag := FlagDef("region", "r", "Run command to specific region", Str(""), Str("ap-northeast-2"), "StringVar",
    ["pod", "deployment", "service", "serviceaccount", "configmap", "ingress", "cluster", "init"], false)
  const AllFlag := FlagDef("all", "A", "All namespace flag", Bool(false), Bool(false), "BoolVar",
    ["pod", "deployment", "service", "serviceaccount", "configmap", "ingress", "role", "clusterrole", "rolebinding", "clusterrolebinding", "secret"], false)

  /** `FlagRegistry`, in declaration order. */
  const FlagRegistry := [NamespaceFlag, RegionFlag, AllFlag]

  /** The arguments of the builder call: value, name, default and usage,
      the default being left out for the `Var` method. */
  function BuilderArgs(d: FlagDef): (r: seq<FlagArg>)
    ensures |r| == (if d.flagAddMethod == "Var" then 3 else 4)
    ensures r[0] == ValueArg(d.value) && r[1] == NameArg(d.name) && r[|r| - 1] == UsageArg(d.usage)
    ensures (exists i :: 0 <= i < |r| && r[i].DefaultArg?) <==> d.flagAddMethod != "Var"
    ensures d.flagAddMethod != "Var" ==> r[2] == DefaultArg(d.defValue)
  {
    var r := [ValueArg(d.value), NameArg(d.name)] + (if d.flagAddMethod != "Var" then [DefaultArg(d.defValue)] else []) + [UsageArg(d.usage)];
    assert d.flagAddMethod != "Var" ==> r[2].DefaultArg?;
    r
  }

  /** A built `pflag.Flag`: what the builder was given and the two fields
      copied onto it afterwards. */
  class PFlag {
    const name: string
    const args: seq<FlagArg>
    const shorthand: string
    const hidden: bool

    constructor(name: string, args: seq<FlagArg>, shorthand: string, hidden: bool)
      ensures this.name == name && this.args == args && this.shorthand == shorthand && this.hidden == hidden
    {
      this.name := name;
      this.args := args;
      this.shorthand := shorthand;
      this.hidden := hidden;
    }
  }

  /** A registry entry with its memoised flag object. */
  class Flag {
    const def: FlagDef
    var pflag: PFlag?

    constructor(def: FlagDef)
      ensures this.def == def && pflag == null
    {
      this.def := def;
      pflag := null;
    }

    /** `flag()`: the memoised object when there is one; otherwise a new
        one, built from the argument list and given the shorthand and the
        hidden mark, which is remembered. */
    method Get() returns (f: PFlag)
      modifies this
      ensures old(pflag) != null ==> f == old(pflag) && pflag == old(pflag)
      ensures old(pflag) == null ==> fresh(f) && pflag == f
      ensures old(pflag) == null ==> (f.name == def.name && f.args == BuilderArgs(def)
                                      && f.shorthand == def.shorthand && f.hidden == def.hidden)
    {
      if pflag != null {
        return pflag;
      }
      f := new PFlag(def.name, BuilderArgs(def), def.shorthand, def.hidden);
      pflag := f;
    }
  }

  /** A subcommand: its `Use` name and the persistent flags added to it. */
  class Command {
    const use: string
    var persistentFlags: seq<PFlag?>

    constructor(use: string)
      ensures this.use == use && persistentFlags == []
    {
      this.use := use;
      persistentFlags := [];
    }
  }

  /** The memo of every registry entry. */
  function Memos(registry: seq<Flag>): (r: seq<PFlag?>)
    reads registry
    ensures |r| == |registry| && forall i :: 0 <= i < |registry| ==> r[i] == registry[i].pflag
  {
    if |registry| == 0 then [] else Memos(registry[..|registry| - 1]) + [registry[|registry| - 1].pflag]
  }

  /** The flags attached to a command named `use` by the first `n`
      entries: the memo of each entry whose `DefinedOn` lists the name, in
      registry order. */
  function AttachedUpTo(use: string, defs: seq<FlagDef>, memos: seq<PFlag?>, n: nat): seq<PFlag?>
    requires |memos| == |defs| && n <= |defs|
  {
    if n == 0 then []
    else AttachedUpTo(use, defs, memos, n - 1) + (if use in defs[n - 1].definedOn then [memos[n - 1]] else [])
  }

  /** The flags attached to a command named `use` by the whole registry. */
  function Attached(use: string, defs: seq<FlagDef>, memos: seq<PFlag?>): seq<PFlag?>
    requires |memos| == |defs|
  {
    AttachedUpTo(use, defs, memos, |defs|)
  }

  /** The definitions of the registry entries. */
  function Defs(registry: seq<Flag>): (r: seq<FlagDef>)
    ensures |r| == |registry| && forall i :: 0 <= i < |registry| ==> r[i] == registry[i].def
  {
    if |registry| == 0 then [] else Defs(registry[..|registry| - 1]) + [registry[|registry| - 1].def]
  }

  /** The names the registry attaches to a command named `use`, in order. */
  function AttachedNames(use: string, defs: seq<FlagDef>): seq<string>
  {
    if |defs| == 0 then []
    else
      var n := |defs| - 1;
      AttachedNames(use, defs[..n]) + (if use in defs[n].definedOn then [defs[n].name] else [])
  }

  /** An entry is attached exactly when its `DefinedOn` lists the name. */
  lemma {:induction false} AttachedNamesMembers(use: string, defs: seq<FlagDef>)
    requires forall i, j :: 0 <= i < j < |defs| ==> defs[i].name != defs[j].name
    ensures forall i :: 0 <= i < |defs| ==> (defs[i].name in AttachedNames(use, defs) <==> use in defs[i].definedOn)
  {
    if |defs| > 0 {
      var n := |defs| - 1;
      AttachedNamesMembers(use, defs[..n]);
      AttachedNamesFrom(use, defs[..n]);
    }
  }

  /** Every attached name is the name of some entry. */
  lemma {:induction false} AttachedNamesFrom(use: string, defs: seq<FlagDef>)
    ensures forall x :: x in AttachedNames(use, defs) ==> exists i :: 0 <= i < |defs| && defs[i].name == x && use in defs[i].definedOn
  {
    if |defs| > 0 {
      var n := |defs| - 1;
      AttachedNamesFrom(use, defs[..n]);
      assert forall i :: 0 <= i < n ==> defs[..n][i] == defs[i];
    }
  }

  /** The objects attached by the first `n` entries are exactly the memos
      of those entries that list the name, one per such entry. */
  lemma {:induction false} AttachedUpToMembers(use: string, defs: seq<FlagDef>, memos: seq<PFlag?>, n: nat)
    requires |memos| == |defs| && n <= |defs|
    ensures |AttachedUpTo(use, defs, memos, n)| == |AttachedNames(use, defs[..n])|
    ensures forall i :: 0 <= i < n && use in defs[i].definedOn ==> memos[i] in AttachedUpTo(use, defs, memos, n)
    ensures forall x :: x in AttachedUpTo(use, defs, memos, n) ==>
      exists i :: 0 <= i < n && use in defs[i].definedOn && memos[i] == x
  {
    if n > 0 {
      AttachedUpToMembers(use, defs, memos, n - 1);
      assert defs[..n][..n - 1] == defs[..n - 1];
    }
  }

  /** The attached objects are exactly the memos of the entries that list
      the name, one per such entry. */
  lemma AttachedMembers(use: string, defs: seq<FlagDef>, memos: seq<PFlag?>)
    requires |memos| == |defs|
    ensures |Attached(use, defs, memos)| == |AttachedNames(use, defs)|
    ensures forall i :: 0 <= i < |defs| && use in defs[i].definedOn ==> memos[i] in Attached(use, defs, memos)
    ensures forall x :: x in Attached(use, defs, memos) ==>
      exists i :: 0 <= i < |defs| && use in defs[i].definedOn && memos[i] == x
  {
    AttachedUpToMembers(use, defs, memos, |defs|);
    assert defs[..|defs|] == defs;
  }

  /** What the first `n` entries attach depends only on the memos of those
      that match. */
  lemma {:induction false} AttachedUpToStable(use: string, defs: seq<FlagDef>, m1: seq<PFlag?>, m2: seq<PFlag?>, n: nat)
    requires |m1| == |defs| && |m2| == |defs| && n <= |defs|
    requires forall i :: 0 <= i < n && use in defs[i].definedOn ==> m1[i] == m2[i]
    ensures AttachedUpTo(use, defs, m1, n) == AttachedUpTo(use, defs, m2, n)
  {
    if n > 0 {
      AttachedUpToStable(use, defs, m1, m2, n - 1);
    }
  }

  /** `Attached` depends only on the memos of the entries that match. */
  lemma AttachedStable(use: string, defs: seq<FlagDef>, m1: seq<PFlag?>, m2: seq<PFlag?>)
    requires |m1| == |defs| && |m2| == |defs|
    requires forall i :: 0 <= i < |defs| && use in defs[i].definedOn ==> m1[i] == m2[i]
    ensures Attached(use, defs, m1) == Attached(use, defs, m2)
  {
    AttachedUpToStable(use, defs, m1, m2, |defs|);
  }

  /** Some command of `children` has a name the entry lists. */
  predicate Wanted(children: seq<Command>, d: FlagDef)
  {
    exists k :: 0 <= k < |children| && children[k].use in d.definedOn
  }

  /** One more child is wanted by an entry when it lists that child's name. */
  lemma WantedStep(children: seq<Command>, k: nat)
    requires k < |children|
    ensures forall d :: Wanted(children[..k + 1], d) <==> Wanted(children[..k], d) || children[k].use in d.definedOn
  {
    assert forall c :: 0 <= c < k ==> children[..k + 1][c] == children[..k][c];
    assert children[..k + 1][k] == children[k];
  }

  /** `SetCommandFlags`: every child gets, appended to its persistent flags,
      the flag object of each registry entry listing its name, in registry
      order. Each object is built at most once and shared by every child it
      is attached to; entries no child lists are left unbuilt. */
  method SetCommandFlags(children: seq<Command>, registry: seq<Flag>)
    requires forall i, j :: 0 <= i < j < |children| ==> children[i] != children[j]
    requires forall i, j :: 0 <= i < j < |registry| ==> registry[i] != registry[j]
    modifies children, registry
    ensures forall k :: 0 <= k < |children| ==>
      children[k].persistentFlags == old(children[k].persistentFlags) + Attached(children[k].use, Defs(registry), Memos(registry))
    ensures forall i :: 0 <= i < |registry| && old(registry[i].pflag) != null ==> registry[i].pflag == old(registry[i].pflag)
    ensures forall i :: 0 <= i < |registry| && Wanted(children, registry[i].def) ==> registry[i].pflag != null
    ensures forall i :: 0 <= i < |registry| && !Wanted(children, registry[i].def) ==> registry[i].pflag == old(registry[i].pflag)
  {
    ghost var memos0 := Memos(registry);
    var defs := Defs(registry);
    for k := 0 to |children|
      invariant forall c :: 0 <= c < k ==>
        children[c].persistentFlags == old(children[c].persistentFlags) + Attached(children[c].use, defs, Memos(registry))
      invariant forall c :: k <= c < |children| ==> children[c].persistentFlags == old(children[c].persistentFlags)
      invariant forall i :: 0 <= i < |registry| && Wanted(children[..k], defs[i]) ==> registry[i].pflag != null
      invariant forall i :: 0 <= i < |registry| ==>
        registry[i].pflag == memos0[i] || (memos0[i] == null && Wanted(children[..k], defs[i]))
    {
      ghost var before := Memos(registry);
      AttachOne(children[k], registry, defs);
      WantedStep(children, k);
      forall c | 0 <= c < k
        ensures Attached(children[c].use, defs, Memos(registry)) == Attached(children[c].use, defs, before)
      {
        assert children[..k][c] == children[c];
        AttachedStable(children[c].use, defs, Memos(registry), before);
      }
    }
    assert children[..|children|] == children;
  }

  /** One step of the inner loop: the entry's flag is attached when it
      lists the child's name. */
  method AttachEntry(child: Command, flag: Flag)
    modifies child, flag
    ensures child.persistentFlags == old(child.persistentFlags) + (if child.use in flag.def.definedOn then [flag.pflag] else [])
    ensures old(flag.pflag) != null ==> flag.pflag == old(flag.pflag)
    ensures child.use in flag.def.definedOn ==> flag.pflag != null
    ensures child.use !in flag.def.definedOn ==> flag.pflag == old(flag.pflag)
  {
    if child.use in flag.def.definedOn {
      var f := flag.Get();
      child.persistentFlags := child.persistentFlags + [f];
    }
  }

  /** The inner loop of `SetCommandFlags` for one child. */
  method AttachOne(child: Command, registry: seq<Flag>, defs: seq<FlagDef>)
    requires forall i, j :: 0 <= i < |registry| && 0 <= j < |registry| && i != j ==> registry[i] != registry[j]
    requires defs == Defs(registry)
    modifies child, registry
    ensures child.persistentFlags == old(child.persistentFlags) + Attached(child.use, defs, Memos(registry))
    ensures forall i :: 0 <= i < |registry| && child.use in defs[i].definedOn ==> registry[i].pflag != null
    ensures forall i :: 0 <= i < |registry| ==>
      registry[i].pflag == old(registry[i].pflag) || (old(registry[i].pflag) == null && child.use in defs[i].definedOn)
  {
    ghost var memos0 := Memos(registry);
    ghost var m := memos0;
    for i := 0 to |registry|
      invariant |m| == |registry| && forall j :: 0 <= j < |registry| ==> registry[j].pflag == m[j]
      invariant child.persistentFlags == old(child.persistentFlags) + AttachedUpTo(child.use, defs, m, i)
      invariant forall j :: 0 <= j < i && child.use in defs[j].definedOn ==> m[j] != null
      invariant forall j :: 0 <= j < |registry| ==> m[j] == memos0[j] || (memos0[j] == null && j < i && child.use in defs[j].definedOn)
    {
      ghost var prev := m;
      AttachEntry(child, registry[i]);
      m := m[i := registry[i].pflag];
      AttachedUpToStable(child.use, defs, m, prev, i);
    }
    assert Memos(registry) == m;
  }

  /** The attachments of a three-entry registry, entry by entry. */
  lemma AttachedNamesThree(use: string, a: FlagDef, b: FlagDef, c: FlagDef)
    ensures AttachedNames(use, [a, b, c])
         == (if use in a.definedOn then [a.name] else []) + (if use in b.definedOn then [b.name] else [])
          + (if use in c.definedOn then [c.name] else [])
  {
    assert [a][..0] == [];
    assert AttachedNames(use, [a]) == (if use in a.definedOn then [a.name] else []);
    assert [a, b][..1] == [a];
    assert AttachedNames(use, [a, b]) == AttachedNames(use, [a]) + (if use in b.definedOn then [b.name] else []);
    assert [a, b, c][..2] == [a, b];
  }

  /** `pod` and the other namespaced listings get all three flags. */
  lemma PodGetsAllFlags()
    ensures AttachedNames("pod", FlagRegistry) == ["namespace", "region", "all"]
  {
    AttachedNamesThree("pod", NamespaceFlag, RegionFlag, AllFlag);
    assert NamespaceFlag.definedOn[0] == "pod" && RegionFlag.definedOn[0] == "pod" && AllFlag.definedOn[0] == "pod";
  }

  /** `cluster` gets only `region`. */
  lemma ClusterGetsRegion()
    ensures AttachedNames("cluster", FlagRegistry) == ["region"]
  {
    AttachedNamesThree("cluster", NamespaceFlag, RegionFlag, AllFlag);
    assert RegionFlag.definedOn[6] == "cluster";
  }

  /** `init` gets only `region`. */
  lemma InitGetsRegion()
    ensures AttachedNames("init", FlagRegistry) == ["region"]
  {
    AttachedNamesThree("init", NamespaceFlag, RegionFlag, AllFlag);
    assert RegionFlag.definedOn[7] == "init";
  }

  /** `clusterrole` gets only `all`. */
  lemma ClusterRoleGetsAll()
    ensures AttachedNames("clusterrole", FlagRegistry) == ["all"]
  {
    AttachedNamesThree("clusterrole", NamespaceFlag, RegionFlag, AllFlag);
    assert AllFlag.definedOn[7] == "clusterrole";
  }

  /** `role` gets `namespace` and `all`. */
  lemma RoleGetsNamespaceAndAll()
    ensures AttachedNames("role", FlagRegistry) == ["namespace", "all"]
  {
    AttachedNamesThree("role", NamespaceFlag, RegionFlag, AllFlag);
    assert NamespaceFlag.definedOn[6] == "role" && AllFlag.definedOn[6] == "role";
  }

  /** `DefinedOn` is matched literally: no entry lists "all", so a command
      named "all" gets no flag. */
  lemma AllIsNotSpecial()
    ensures AttachedNames("all", FlagRegistry) == []
  {
    AttachedNamesThree("all", NamespaceFlag, RegionFlag, AllFlag);
  }

  /** `node` is listed by no entry and gets no flag. */
  lemma NodeGetsNoFlag()
    ensures AttachedNames("node", FlagRegistry) == []
  {
    AttachedNamesThree("node", NamespaceFlag, RegionFlag, AllFlag);
  }
}
