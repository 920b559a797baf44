/** cmd/kubenx/cmd/ssh.go: the `ssh` command's argument check, the lookup
    of a bastion server in the registry file `~/.kubenx/ssh`, and the order
    of the dial steps through the bastion. The file system, the JSON
    decoder and the SSH library are inputs: the registry arrives already
    read, and each dial step's failure is given. */
module Ssh {

  import opened Wrappers
  import opened GoStrings

  const KubenxHomeDir := ".kubenx"
  const SshDefaultPath := "ssh"
  const TargetDefaultPort := "22"
  const NoFileException := "No file exists... Please check the file path"
  const TooManyArguments := "Too many Arguments"
  const SshUsage := "Usage: kubenx ssh [key]"
  /** The login user of every SSH connection. */
  const Ec2User := "ec2-user"

  /** One entry of the registry's `bastion` array. */
  datatype Server = Server(key: string, addr: string, port: string, user: string, keyFile: string)

  /** `SSHConfig`: where the bastion is and which key file to use. */
  datatype SshConfig = SshConfig(addr: string, port: string, user: string, keyfile: string)

  /** The registry file as the command finds it: absent, or present with
      contents that decode to a server list or do not decode at all. */
  datatype Registry = NoFile | Malformed | Servers(servers: seq<Server>)

  // ------------------------------------------------------------ arguments

  /** `sshCmd.Run`: more than two arguments or none exit; otherwise the key
      is the first argument and a second one is ignored. */
  function SshKey(args: seq<string>): (r: Outcome<string>)
    ensures |args| > 2 <==> r == Exit(TooManyArguments)
    ensures |args| == 0 <==> r == Exit(SshUsage)
    ensures r.Ok? <==> 1 <= |args| <= 2
    ensures r.Ok? ==> r.value == args[0]
    ensures r.Ok? || r.Exit?
  {
    if |args| > 2 then Exit(TooManyArguments)
    else if |args| == 0 then Exit(SshUsage)
    else Ok(args[0])
  }

  // ------------------------------------------------------------ registry

  /** The registry file's path under the home directory: `filepath.Join`
      cleans the home directory first, so a separator at its end or a `..`
      in it does not show. */
  function RegistryPath(home: string): (p: string)
    ensures home != "" ==> p == Under(Clean(home), KubenxHomeDir + "/" + SshDefaultPath)
    ensures home == "" ==> p == KubenxHomeDir + "/" + SshDefaultPath
  {
    assert PlainElem(KubenxHomeDir) && PlainElem(SshDefaultPath);
    PlainRelOne(SshDefaultPath);
    PathJoinPlain(home, KubenxHomeDir, SshDefaultPath);
    PathJoin([home, KubenxHomeDir, SshDefaultPath])
  }

  /** A home directory given with a separator at its end gives the same
      registry path as without it. */
  lemma RegistryPathTrailingSlash(h: string)
    requires PlainRel(h)
    ensures RegistryPath("/" + h + "/") == RegistryPath("/" + h) == "/" + h + "/" + KubenxHomeDir + "/" + SshDefaultPath
  {
    CleanRooted(h);
  }

  /** The `.ssh` directory joined with the home directory, before cleaning. */
  function SshDir(home: string): string
  {
    if home == "" then ".ssh" else home + "/" + ".ssh"
  }

  /** The key file's path, from `<home>/.ssh/<keyfile>` as `filepath.Join`
      cleans it: a plain relative key file name lands in the cleaned home's
      `.ssh` directory, and an empty one names that directory. */
  function KeyFilePath(home: string, keyFile: string): (p: string)
    ensures keyFile == "" || PlainRel(keyFile) ==>
      p == if home == "" then Child(".ssh", keyFile) else Under(Clean(home), Child(".ssh", keyFile))
  {
    assert PlainElem(".ssh");
    PathJoinChild(home, ".ssh", keyFile);
    PathJoin([home, ".ssh", keyFile])
  }

  /** The joined text the key file path is cleaned from. */
  lemma KeyFileJoined(home: string, keyFile: string)
    ensures KeyFilePath(home, keyFile) == Clean(SshDir(home) + "/" + keyFile)
  {
    PathJoinThree(home, ".ssh", keyFile);
    if home != "" {
      assert home + "/" + ".ssh" + "/" + keyFile == SshDir(home) + "/" + keyFile;
    }
  }

  /** A separator at the start of the key file name is dropped: "/k.pem"
      names the same file as "k.pem". */
  lemma KeyFileLeadingSlash(home: string, keyFile: string)
    ensures KeyFilePath(home, "/" + keyFile) == KeyFilePath(home, keyFile)
  {
    KeyFileJoined(home, "/" + keyFile);
    KeyFileJoined(home, keyFile);
    CleanDropsEmpty(SshDir(home), keyFile);
  }

  /** A key file name starting with "../" leaves the `.ssh` directory. */
  lemma KeyFileParent(home: string, keyFile: string)
    requires home != ""
    ensures KeyFilePath(home, "../" + keyFile) == PathJoin([home, keyFile])
  {
    var up := "../" + keyFile;
    KeyFileJoined(home, up);
    ConcatAssoc(home + "/" + ".ssh", "/", up);
    ConcatAssoc(home + "/", ".ssh", "/" + up);
    ConcatAssoc(".ssh", "/", up);
    assert PlainElem(".ssh");
    CleanParent(home, ".ssh", keyFile);
    assert [home, keyFile][1..] == [keyFile];
    JoinTwo(home, keyFile, "/");
  }

  /** Under a clean absolute home `/h`, the key file names "/k" and "k"
      both give `/h/.ssh/k`, and "../k" gives `/h/k`. */
  lemma KeyFileUnderRootedHome(h: string, k: string)
    requires PlainRel(h) && PlainRel(k)
    ensures KeyFilePath("/" + h, "/" + k) == KeyFilePath("/" + h, k) == "/" + h + "/.ssh/" + k
    ensures KeyFilePath("/" + h, "../" + k) == "/" + h + "/" + k
  {
    CleanRooted(h);
    PlainRelShape(h);
    PlainRelShape(k);
    assert "/" + h != "/" && "/" + h != ".";
    assert "/" + h + "/" + (".ssh" + "/" + k) == "/" + h + "/.ssh/" + k;
    KeyFileLeadingSlash("/" + h, k);
    KeyFileParent("/" + h, k);
    assert [("/" + h), k][1..] == [k];
    JoinTwo("/" + h, k, "/");
    CleanUnder("/" + h, k);
  }

  /** The servers the lookup walks: a registry that does not decode leaves
      the `Bastion` value empty, the decoding error being dropped. */
  function ServersOf(registry: Registry): seq<Server>
  {
    if registry.Servers? then registry.servers else []
  }

  /** The first server whose key is `key`, if there is one. */
  function FirstServer(servers: seq<Server>, key: string): (r: Option<nat>)
    ensures r.None? <==> forall i :: 0 <= i < |servers| ==> servers[i].key != key
    ensures r.Some? ==> r.value < |servers| && servers[r.value].key == key
    ensures r.Some? ==> forall j :: 0 <= j < r.value ==> servers[j].key != key
  {
    if |servers| == 0 then None
    else if servers[0].key == key then Some(0)
    else
      match FirstServer(servers[1..], key)
      case None => None
      case Some(i) => Some(i + 1)
  }

  /** The configuration the lookup builds: the first matching server's
      fields, or empty fields when the key is absent. */
  function ConfigFor(servers: seq<Server>, key: string, home: string): (r: SshConfig)
    ensures (forall i :: 0 <= i < |servers| ==> servers[i].key != key) ==> r.addr == "" && r.port == "" && r.user == ""
    ensures r.addr != "" ==> exists i :: 0 <= i < |servers| && servers[i].key == key && servers[i].addr == r.addr
  {
    match FirstServer(servers, key)
    case Some(i) => SshConfig(servers[i].addr, servers[i].port, servers[i].user, KeyFilePath(home, servers[i].keyFile))
    case None => SshConfig("", "", "", KeyFilePath(home, ""))
  }

  /** `_get_ssh_configuration`: a missing registry file exits; otherwise the
      loop takes the first server whose key matches and stops. */
  method GetSshConfiguration(home: string, registry: Registry, key: string) returns (r: Outcome<SshConfig>)
    ensures registry.NoFile? <==> r == Exit(NoFileException)
    ensures !registry.NoFile? ==> r == Ok(ConfigFor(ServersOf(registry), key, home))
  {
    if registry.NoFile? {
      return Exit(NoFileException);
    }
    var servers := ServersOf(registry);
    var addr, port, user, keyFile := "", "", "", "";
    var i := 0;
    while i < |servers|
      invariant 0 <= i <= |servers|
      invariant forall j :: 0 <= j < i ==> servers[j].key != key
      invariant addr == "" && port == "" && user == "" && keyFile == ""
    {
      if servers[i].key == key {
        addr, port, user, keyFile := servers[i].addr, servers[i].port, servers[i].user, servers[i].keyFile;
        assert FirstServer(servers, key) == Some(i) by {
          FirstServerAt(servers, key, i);
        }
        break;
      }
      i := i + 1;
    }
    return Ok(SshConfig(addr, port, user, KeyFilePath(home, keyFile)));
  }

  /** A matching server with no match before it is the one found. */
  lemma {:induction false} FirstServerAt(servers: seq<Server>, key: string, i: nat)
    requires i < |servers| && servers[i].key == key
    requires forall j :: 0 <= j < i ==> servers[j].key != key
    ensures FirstServer(servers, key) == Some(i)
  {
    if i > 0 {
      FirstServerAt(servers[1..], key, i - 1);
    }
  }

  /** An absent key is not an error: the fields are empty and the key file
      is the `.ssh` directory itself. */
  lemma AbsentKeyDefaults(servers: seq<Server>, key: string, home: string)
    requires forall i :: 0 <= i < |servers| ==> servers[i].key != key
    requires home != ""
    ensures ConfigFor(servers, key, home) == SshConfig("", "", "", Under(Clean(home), ".ssh"))
  {
  }

  /** The first server with the key wins over any later one. */
  lemma FirstMatchWins(before: seq<Server>, s: Server, after: seq<Server>, home: string)
    requires forall i :: 0 <= i < |before| ==> before[i].key != s.key
    ensures ConfigFor(before + [s] + after, s.key, home)
         == SshConfig(s.addr, s.port, s.user, KeyFilePath(home, s.keyFile))
  {
    var all := before + [s] + after;
    assert all[|before|] == s;
    assert forall j :: 0 <= j < |before| ==> all[j] == before[j];
    FirstServerAt(all, s.key, |before|);
  }

  /** A registry that does not decode behaves as an empty one. */
  lemma MalformedIsEmpty(key: string, home: string)
    ensures ConfigFor(ServersOf(Malformed), key, home) == ConfigFor(ServersOf(Servers([])), key, home)
    ensures ConfigFor(ServersOf(Malformed), key, home) == SshConfig("", "", "", KeyFilePath(home, ""))
  {
  }

  // ------------------------------------------------------------ dialing

  /** The steps of `_dial_with_keypair` and `_dial`, with the address and
      the user each connection uses. */
  datatype DialStep =
    | ReadKey(path: string)
    | ParseKey
    | BastionDial(addr: string, user: string)
    | RemoteDial(target: string)
    | ClientConn(target: string, user: string)

  /** Which step fails, and with what message (`None`: it succeeds). */
  datatype Faults = Faults(readKey: Option<string>, parseKey: Option<string>, bastion: Option<string>,
                           remote: Option<string>, clientConn: Option<string>)
  {
    function AsSeq(): seq<Option<string>>
    {
      [readKey, parseKey, bastion, remote, clientConn]
    }
  }

  /** Every step, in the order they are taken when none fails. */
  function PlannedSteps(cfg: SshConfig, targetHost: string, targetPort: string): (r: seq<DialStep>)
    ensures |r| == 5
  {
    var addr := cfg.addr + ":" + cfg.port;
    var target := targetHost + ":" + targetPort;
    [ReadKey(cfg.keyfile), ParseKey, BastionDial(addr, Ec2User), RemoteDial(target), ClientConn(target, Ec2User)]
  }

  /** The index of the first failing step, or 5 when none fails. */
  function FirstFault(f: Faults): (k: nat)
    ensures k <= 5
    ensures forall j :: 0 <= j < k ==> f.AsSeq()[j].None?
    ensures k < 5 ==> f.AsSeq()[k].Some?
  {
    if f.readKey.Some? then 0
    else if f.parseKey.Some? then 1
    else if f.bastion.Some? then 2
    else if f.remote.Some? then 3
    else if f.clientConn.Some? then 4
    else 5
  }

  /** What a dial attempt ends with: the steps taken, the result, and
      whether a bastion client is left open. */
  datatype Dialled = Dialled(steps: seq<DialStep>, result: Outcome<()>, bastionOpen: bool)

  /** `_dial_with_keypair` followed by `_dial`: each step runs only when
      all before it succeeded, and the first failure is returned. */
  method DialWithKeypair(cfg: SshConfig, targetHost: string, targetPort: string, faults: Faults)
    returns (d: Dialled)
    ensures d.steps == PlannedSteps(cfg, targetHost, targetPort)[..if FirstFault(faults) < 5 then FirstFault(faults) + 1 else 5]
    ensures d.result.Ok? <==> FirstFault(faults) == 5
    ensures !d.result.Ok? ==> d.result == Err(faults.AsSeq()[FirstFault(faults)].value)
    ensures d.bastionOpen <==> FirstFault(faults) > 2
  {
    var plan := PlannedSteps(cfg, targetHost, targetPort);
    var steps := [ReadKey(cfg.keyfile)];
    if faults.readKey.Some? {
      return Dialled(steps, Err(faults.readKey.value), false);
    }
    steps := steps + [ParseKey];
    if faults.parseKey.Some? {
      return Dialled(steps, Err(faults.parseKey.value), false);
    }
    var addr := cfg.addr + ":" + cfg.port;
    var target := targetHost + ":" + targetPort;
    steps := steps + [BastionDial(addr, Ec2User)];
    if faults.bastion.Some? {
      return Dialled(steps, Err(faults.bastion.value), false);
    }
    steps := steps + [RemoteDial(target)];
    if faults.remote.Some? {
      assert steps == plan[..4];
      return Dialled(steps, Err(faults.remote.value), true);
    }
    steps := steps + [ClientConn(target, Ec2User)];
    if faults.clientConn.Some? {
      assert steps == plan;
      return Dialled(steps, Err(faults.clientConn.value), true);
    }
    assert steps == plan;
    return Dialled(steps, Ok(()), true);
  }

  /** The target is reached through the bastion only after the bastion
      connection succeeded, and every connection logs in as `ec2-user`,
      whatever user the registry names. */
  lemma NestedDialNeedsBastion(cfg: SshConfig, targetHost: string, targetPort: string, faults: Faults)
    ensures var k := FirstFault(faults);
      var steps := PlannedSteps(cfg, targetHost, targetPort)[..if k < 5 then k + 1 else 5];
      (exists t :: RemoteDial(t) in steps) ==> faults.bastion.None? && faults.readKey.None? && faults.parseKey.None?
    ensures forall s :: s in PlannedSteps(cfg, targetHost, targetPort) && (s.BastionDial? || s.ClientConn?) ==> s.user == Ec2User
  {
    var k := FirstFault(faults);
    var plan := PlannedSteps(cfg, targetHost, targetPort);
    var steps := plan[..if k < 5 then k + 1 else 5];
    if k <= 2 {
      assert forall i :: 0 <= i < |steps| ==> steps[i] == plan[i];
      assert forall i :: 0 <= i < |steps| ==> !steps[i].RemoteDial?;
    }
  }

  /** The bastion address and the target address joined with their ports. */
  lemma DialAddresses(cfg: SshConfig, targetHost: string)
    ensures PlannedSteps(cfg, targetHost, TargetDefaultPort)[2] == BastionDial(cfg.addr + ":" + cfg.port, Ec2User)
    ensures PlannedSteps(cfg, targetHost, TargetDefaultPort)[3] == RemoteDial(targetHost + ":22")
  {
  }

  /** `sshCmd` as a whole up to the dial: the arguments, then the registry,
      then the connection; a failed connection exits. The chosen target host
      is an input (it comes from an interactive prompt). */
  method TrySsh(home: string, args: seq<string>, registry: Registry, targetHost: string, faults: Faults)
    returns (r: Outcome<Dialled>)
    ensures SshKey(args).Exit? ==> r == Exit(SshKey(args).message)
    ensures SshKey(args).Ok? && registry.NoFile? ==> r == Exit(NoFileException)
    ensures SshKey(args).Ok? && !registry.NoFile? && FirstFault(faults) < 5
         ==> r == Exit(faults.AsSeq()[FirstFault(faults)].value)
    ensures r.Ok? ==> SshKey(args).Ok? && !registry.NoFile? && FirstFault(faults) == 5
    ensures r.Ok? ==> r.value.steps == PlannedSteps(ConfigFor(ServersOf(registry), args[0], home), targetHost, TargetDefaultPort)
  {
    var key := SshKey(args);
    if !key.Ok? {
      return Exit(key.message);
    }
    var cfg := GetSshConfiguration(home, registry, key.value);
    if !cfg.Ok? {
      return Exit(NoFileException);
    }
    var d := DialWithKeypair(cfg.value, targetHost, TargetDefaultPort, faults);
    if !d.result.Ok? {
      return Exit(d.result.error);
    }
    return Ok(d);
  }
}
