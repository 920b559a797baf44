/** cmd/kubenx/cmd/completion.go: the `completion` command's argument
    check and shell lookup, and the writes that produce the bash or zsh
    script. The script cobra generates for the command tree, and the text of
    the zsh wrapper around it, are inputs; `out` is a writer that either
    takes every write or refuses every write with the same error. */
module Completion {

  import opened Wrappers
  import opened GoStrconv

  datatype Shell = Bash | Zsh

  /** `completionShells`. */
  const CompletionShells: map<string, Shell> := map["bash" := Bash, "zsh" := Zsh]

  const ShellNotSpecified := "Shell not specified."
  const TooManyArguments := "Too many arguments." + " Expected only the shell type."
  const ZshHead := "#compdef \n"

  /** The message for a shell that is not in the table: Go's `%q` writes
      the name as `strconv.Quote` does. */
  function UnsupportedShell(name: string): (r: string)
    ensures |r| >= 26 && r[0] == 'U' && r[|r| - 1] == '.'
    ensures r[23..|r| - 1] == Quote(name)
  {
    "Unsupported shell type " + Quote(name) + "."
  }

  /** The message names the shell: different names give different
      messages, because the quoting can be undone. */
  lemma UnsupportedShellInjective(a: string, b: string)
    requires UnsupportedShell(a) == UnsupportedShell(b)
    ensures a == b
  {
    QuoteInjective(a, b);
  }

  /** The three usage messages are distinct. */
  lemma UnsupportedShellDistinct(name: string)
    ensures UnsupportedShell(name) != ShellNotSpecified && UnsupportedShell(name) != TooManyArguments
  {
    assert UnsupportedShell(name)[0] == 'U';
    assert TooManyArguments[0] == 'T' && ShellNotSpecified[0] == 'S';
  }

  /** How a completion run fails: a usage error or a write error. */
  datatype Failure = Usage(message: string) | WriteFailed(error: string)

  /** `RunCompletion`'s checks: no argument, more than one, or an unknown
      shell are usage errors; otherwise the shell named by the argument. */
  function ShellFor(args: seq<string>): (r: Outcome<Shell>)
    ensures r.Ok? || r.Err?
    ensures |args| == 0 <==> r == Err(ShellNotSpecified)
    ensures |args| > 1 <==> r == Err(TooManyArguments)
    ensures r.Ok? <==> |args| == 1 && args[0] in CompletionShells
    ensures r.Ok? ==> r.value == CompletionShells[args[0]]
    ensures |args| == 1 && args[0] !in CompletionShells ==> r == Err(UnsupportedShell(args[0]))
  {
    if |args| == 0 then Err(ShellNotSpecified)
    else if |args| > 1 then Err(TooManyArguments)
    else if args[0] !in CompletionShells then
      UnsupportedShellDistinct(args[0]);
      Err(UnsupportedShell(args[0]))
    else Ok(CompletionShells[args[0]])
  }

  /** Exactly `bash` and `zsh` are supported. */
  lemma SupportedShells(name: string)
    ensures name in CompletionShells <==> name == "bash" || name == "zsh"
    ensures ShellFor(["bash"]) == Ok(Bash) && ShellFor(["zsh"]) == Ok(Zsh)
  {
  }

  /** The boilerplate that is written: the given one, or the default when
      it is empty. */
  function BoilerPlate(given: string, defaultBoilerPlate: string): (r: string)
    requires defaultBoilerPlate != ""
    ensures given != "" ==> r == given
    ensures given == "" ==> r == defaultBoilerPlate
    ensures r != ""
  {
    if |given| == 0 then defaultBoilerPlate else given
  }

  /** The text of the zsh wrapper: what goes before the bash script and
      what goes after it. */
  datatype ZshWrapper = ZshWrapper(initialization: string, tail: string)

  /** An `io.Writer`: the text written so far; `broken` is the error every
      write fails with, if the writer fails at all. */
  class Out {
    var text: string
    const broken: Option<string>

    constructor(broken: Option<string>)
      ensures text == "" && this.broken == broken
    {
      text := "";
      this.broken := broken;
    }

    method Write(s: string) returns (err: Option<string>)
      modifies this
      ensures broken.None? ==> text == old(text) + s && err.None?
      ensures broken.Some? ==> text == old(text) && err == broken
    {
      if broken.Some? {
        return broken;
      }
      text := text + s;
      return None;
    }
  }

  /** `runCompletionBash`: the boilerplate, then the generated script; the
      first failed write is returned. */
  method RunCompletionBash(out: Out, boilerPlate: string, defaultBoilerPlate: string, bashScript: string) returns (err: Option<string>)
    requires defaultBoilerPlate != ""
    modifies out
    ensures out.broken.None? ==> out.text == old(out.text) + BoilerPlate(boilerPlate, defaultBoilerPlate) + bashScript && err.None?
    ensures out.broken.Some? ==> out.text == old(out.text) && err == out.broken
  {
    var b := BoilerPlate(boilerPlate, defaultBoilerPlate);
    err := out.Write(b);
    if err.Some? {
      return err;
    }
    err := out.Write(bashScript);
  }

  /** `runCompletionZsh`: the `#compdef` line, the boilerplate, the wrapper's
      head, the generated script and the wrapper's tail. Only the
      boilerplate's write error is returned; the others are ignored. */
  method RunCompletionZsh(out: Out, boilerPlate: string, defaultBoilerPlate: string, bashScript: string, zsh: ZshWrapper)
    returns (err: Option<string>)
    requires defaultBoilerPlate != ""
    modifies out
    ensures out.broken.None? ==> err.None?
    ensures out.broken.None? ==> out.text == old(out.text) + ZshHead + BoilerPlate(boilerPlate, defaultBoilerPlate) + zsh.initialization + bashScript + zsh.tail
    ensures out.broken.Some? ==> out.text == old(out.text) && err == out.broken
  {
    var ignored := out.Write(ZshHead);
    var b := BoilerPlate(boilerPlate, defaultBoilerPlate);
    err := out.Write(b);
    if err.Some? {
      return err;
    }
    ignored := out.Write(zsh.initialization);
    ignored := out.Write(bashScript);
    ignored := out.Write(zsh.tail);
    return None;
  }

  /** `RunCompletion`: a usage error writes nothing; otherwise the chosen
      shell's script is written. */
  method RunCompletion(out: Out, boilerPlate: string, defaultBoilerPlate: string, args: seq<string>,
                       bashScript: string, zsh: ZshWrapper)
    returns (err: Option<Failure>)
    requires defaultBoilerPlate != ""
    modifies out
    ensures ShellFor(args).Err? ==> err == Some(Usage(ShellFor(args).error)) && out.text == old(out.text)
    ensures ShellFor(args) == Ok(Bash) && out.broken.None? ==>
      err.None? && out.text == old(out.text) + BoilerPlate(boilerPlate, defaultBoilerPlate) + bashScript
    ensures ShellFor(args) == Ok(Zsh) && out.broken.None? ==>
      err.None? && out.text == old(out.text) + ZshHead + BoilerPlate(boilerPlate, defaultBoilerPlate) + zsh.initialization + bashScript + zsh.tail
    ensures ShellFor(args).Ok? && out.broken.Some? ==> err == Some(WriteFailed(out.broken.value)) && out.text == old(out.text)
  {
    var shell := ShellFor(args);
    if shell.Err? {
      return Some(Usage(shell.error));
    }
    var e: Option<string>;
    if shell.value == Bash {
      e := RunCompletionBash(out, boilerPlate, defaultBoilerPlate, bashScript);
    } else {
      e := RunCompletionZsh(out, boilerPlate, defaultBoilerPlate, bashScript, zsh);
    }
    if e.Some? {
      return Some(WriteFailed(e.value));
    }
    return None;
  }

  /** The zsh script starts with `#compdef ` on its own line, followed by
      the boilerplate, which is the default one for `execCompletion`. */
  lemma ZshStartsWithCompdef(boilerPlate: string, defaultBoilerPlate: string, bashScript: string, zsh: ZshWrapper)
    requires defaultBoilerPlate != ""
    ensures var script := ZshHead + BoilerPlate(boilerPlate, defaultBoilerPlate) + zsh.initialization + bashScript + zsh.tail;
      script[..|ZshHead|] == "#compdef \n"
      && script[|ZshHead|..|ZshHead| + |BoilerPlate(boilerPlate, defaultBoilerPlate)|] == BoilerPlate(boilerPlate, defaultBoilerPlate)
    ensures BoilerPlate("", defaultBoilerPlate) == defaultBoilerPlate
  {
    var b := BoilerPlate(boilerPlate, defaultBoilerPlate);
    var script := ZshHead + b + zsh.initialization + bashScript + zsh.tail;
    assert script == ZshHead + b + (zsh.initialization + bashScript + zsh.tail);
  }
}
