/**
 * The four builtins, `cd`, `pwd`, `which` and `exit`, and `execute_builtin`
 * that picks one by the first token. Both shells implement them with the
 * same branches and differ only in a few messages, given as a `Wording`.
 * The current directory is an explicit value; HOME, `chdir` and the
 * executable set come from `Os`. `exit` ends the process, which the model
 * reports as `terminated`.
 */
module Builtins {
  import opened Common
  import opened Tokens
  import opened Resolver
  import opened Process

  /** What a builtin returns, the working directory after it, what it wrote, and whether the shell ended. */
  datatype BuiltinOutcome = BuiltinOutcome(status: int, cwd: string, output: seq<Output>, terminated: bool)

  /** The texts in which the two shells' builtins differ. */
  datatype Wording = Wording(
    homeUnset: string,              // `cd` alone while HOME is unset
    cdArity: string,                // `cd` with two or more arguments
    whichMissing: string -> string, // `which NAME` when NAME does not resolve
    farewell: string)               // `exit`, after the echoed arguments

  /** Size of the buffer `getcwd` writes the directory into, NUL included. */
  const CWD_BUFFER_SIZE: nat := 1024

  const WHICH_ARITY: string := "which: expected one argument\n"

  /**
   * `builtin_cd`: by the token count, `chdir` to HOME, to `tokens[1]`, or
   * refuse. The directory changes only when `chdir` succeeds.
   */
  function Cd(tokens: seq<string>, cwd: string, os: Os, w: Wording): (r: BuiltinOutcome)
    ensures !r.terminated && (r.status == 0 || r.status == 1)
    ensures r.status == 0 <==> r.output == []
    ensures r.status == 1 ==> r.cwd == cwd && |r.output| == 1
    ensures r.status == 0 <==>
              || (|tokens| == 1 && os.home.Some? && os.chdir(cwd, os.home.value) == Some(r.cwd))
              || (|tokens| == 2 && os.chdir(cwd, tokens[1]) == Some(r.cwd))
    ensures |tokens| == 1 && os.home.None? ==> r == BuiltinOutcome(1, cwd, [Stderr(w.homeUnset)], false)
    ensures |tokens| != 1 && |tokens| != 2 ==> r == BuiltinOutcome(1, cwd, [Stderr(w.cdArity)], false)
    ensures r.status == 1 && ((|tokens| == 1 && os.home.Some?) || |tokens| == 2) ==>
              r == BuiltinOutcome(1, cwd, [Perror("cd")], false)
  {
    if |tokens| == 1 then
      match os.home
      case None => BuiltinOutcome(1, cwd, [Stderr(w.homeUnset)], false)
      case Some(home) => ChangeTo(cwd, os, home)
    else if |tokens| == 2 then ChangeTo(cwd, os, tokens[1])
    else BuiltinOutcome(1, cwd, [Stderr(w.cdArity)], false)
  }

  /** `if (chdir(target) != 0) { perror("cd"); return 1; }`, else 0. */
  function ChangeTo(cwd: string, os: Os, target: string): (r: BuiltinOutcome)
    ensures !r.terminated
    ensures r.status == 0 <==> os.chdir(cwd, target).Some?
    ensures r.status == 0 ==> r.cwd == os.chdir(cwd, target).value && r.output == []
    ensures r.status != 0 ==> r == BuiltinOutcome(1, cwd, [Perror("cd")], false)
  {
    match os.chdir(cwd, target)
    case None => BuiltinOutcome(1, cwd, [Perror("cd")], false)
    case Some(dir) => BuiltinOutcome(0, dir, [], false)
  }

  /**
   * `builtin_pwd`: `getcwd` into 1024 bytes succeeds when the directory and
   * its NUL fit, and the directory is printed on its own line.
   */
  function Pwd(cwd: string): (r: BuiltinOutcome)
    ensures r.cwd == cwd && !r.terminated
    ensures r.status == 0 <==> |cwd| < CWD_BUFFER_SIZE
    ensures r.status == 0 ==> r.output == [Stdout(cwd + "\n")]
    ensures r.status != 0 ==> r.status == 1 && r.output == [Perror("pwd")]
  {
    if |cwd| + 1 <= CWD_BUFFER_SIZE then BuiltinOutcome(0, cwd, [Stdout(cwd + "\n")], false)
    else BuiltinOutcome(1, cwd, [Perror("pwd")], false)
  }

  /** `builtin_which`: exactly one argument, resolved as a command name would be. */
  function Which(tokens: seq<string>, cwd: string, os: Os, w: Wording): (r: BuiltinOutcome)
    ensures r.cwd == cwd && !r.terminated && |r.output| == 1
    ensures r.status == 0 <==> |tokens| == 2 && Resolve(tokens[1], os.executable).Some?
    ensures r.status != 0 ==> r.status == 1 && r.output[0].Stderr?
    ensures r.status == 0 ==> r.output == [Stdout(Resolve(tokens[1], os.executable).value + "\n")]
    ensures |tokens| != 2 ==> r.output == [Stderr(WHICH_ARITY)]
  {
    if |tokens| != 2 then BuiltinOutcome(1, cwd, [Stderr(WHICH_ARITY)], false)
    else match Resolve(tokens[1], os.executable)
      case Some(path) => BuiltinOutcome(0, cwd, [Stdout(path + "\n")], false)
      case None => BuiltinOutcome(1, cwd, [Stderr(w.whichMissing(tokens[1]))], false)
  }

  /** `builtin_exit`: echo the arguments, say goodbye, and end the process with 0. */
  function Exit(tokens: seq<string>, cwd: string, w: Wording): (r: BuiltinOutcome)
    ensures r.terminated && r.status == 0 && r.cwd == cwd
    ensures |tokens| <= 1 ==> r.output == [Stdout(w.farewell)]
    ensures |tokens| > 1 ==> r.output == [Stdout(Unwords(tokens[1..]) + "\n" + w.farewell)]
  {
    assert "" + w.farewell == w.farewell;
    BuiltinOutcome(0, cwd, [Stdout(EchoLine(tokens) + w.farewell)], true)
  }

  /** `execute_builtin`: the builtin named by `tokens[0]`, or -1 for any other name. */
  function ExecuteBuiltin(tokens: seq<string>, cwd: string, os: Os, w: Wording): (r: BuiltinOutcome)
    requires |tokens| > 0
    ensures r.status == -1 <==> !IsBuiltinName(tokens[0])
    ensures !IsBuiltinName(tokens[0]) ==> r == BuiltinOutcome(-1, cwd, [], false)
    ensures r.terminated <==> tokens[0] == "exit"
    ensures r.cwd != cwd ==> tokens[0] == "cd" && r.status == 0
    ensures IsBuiltinName(tokens[0]) ==> r.status == 0 || r.status == 1
  {
    if tokens[0] == "cd" then Cd(tokens, cwd, os, w)
    else if tokens[0] == "pwd" then Pwd(cwd)
    else if tokens[0] == "which" then Which(tokens, cwd, os, w)
    else if tokens[0] == "exit" then Exit(tokens, cwd, w)
    else BuiltinOutcome(-1, cwd, [], false)
  }

  /**
   * `cd` with two or more arguments and `which` without exactly one fail
   * before consulting HOME, `chdir` or the resolver: the result is the same
   * under any operating-system answers.
   */
  lemma {:induction false} ArityCheckedFirst(tokens: seq<string>, cwd: string, a: Os, b: Os, w: Wording)
    requires |tokens| > 0
    requires (tokens[0] == "cd" && |tokens| >= 3) || (tokens[0] == "which" && |tokens| != 2)
    ensures ExecuteBuiltin(tokens, cwd, a, w) == ExecuteBuiltin(tokens, cwd, b, w)
    ensures ExecuteBuiltin(tokens, cwd, a, w).status == 1
    ensures ExecuteBuiltin(tokens, cwd, a, w).cwd == cwd
  {
  }

  /**
   * `which NAME` succeeds exactly when running NAME, with any arguments, gets
   * past the "command not found" path, and it prints the path that is run.
   */
  lemma {:induction false} WhichAgreesWithExternal(name: string, args: seq<string>, cwd: string, os: Os, w: Wording,
                                interactive: bool, spawn: Spawn, failed: string)
    ensures Which(["which", name], cwd, os, w).status == 0 <==>
              RunExternal([name] + args, os.executable, interactive, spawn, failed) !=
              ExternalOutcome(127, false, [Stderr(name + ": command not found\n")])
    ensures Which(["which", name], cwd, os, w).status == 0 ==>
              Which(["which", name], cwd, os, w).output == [Stdout(Resolve(name, os.executable).value + "\n")] &&
              Resolve(name, os.executable).value in os.executable
  {
    assert ([name] + args)[0] == name;
  }

  /** The line `pwd` prints reads back, cut at its newline, as the working directory. */
  lemma {:induction false} PwdReadsBack(cwd: string)
    requires '\n' !in cwd && |cwd| < CWD_BUFFER_SIZE
    ensures CutAtNewline(Pwd(cwd).output[0].text) == cwd
  {
    CutAtFirstNewline(cwd, "");
    assert cwd + "\n" + "" == cwd + "\n";
  }

  /**
   * What `exit` echoes is its arguments: its first line, split into words,
   * gives back `tokens[1..]`, and the farewell follows it.
   */
  lemma {:induction false} ExitEchoesArguments(tokens: seq<string>, cwd: string, w: Wording)
    requires |tokens| > 1 && forall i | 1 <= i < |tokens| :: Plain(tokens[i])
    ensures Words(CutAtNewline(Exit(tokens, cwd, w).output[0].text)) == tokens[1..]
    ensures w.farewell <= Exit(tokens, cwd, w).output[0].text[|EchoLine(tokens)|..]
  {
    UnwordsNoNewline(tokens[1..]);
    CutAtFirstNewline(Unwords(tokens[1..]), w.farewell);
    WordsOfUnwords(tokens[1..]);
  }

  /** The process the shell runs in: its working directory is the state `cd` changes. */
  class Shell {
    var cwd: string

    constructor (start: string)
      ensures cwd == start
    {
      cwd := start;
    }

    /** `execute_builtin(cmd)` run for its effect on the working directory. */
    method RunBuiltin(tokens: seq<string>, os: Os, w: Wording)
        returns (status: int, output: seq<Output>, terminated: bool)
      requires |tokens| > 0
      modifies this
      ensures var r := ExecuteBuiltin(tokens, old(cwd), os, w);
              status == r.status && output == r.output && terminated == r.terminated && cwd == r.cwd
    {
      if tokens[0] == "cd" {
        var r := Cd(tokens, cwd, os, w);
        status, output, terminated := r.status, r.output, false;
        cwd := r.cwd;
      } else if tokens[0] == "pwd" {
        var r := Pwd(cwd);
        status, output, terminated := r.status, r.output, false;
      } else if tokens[0] == "which" {
        var r := Which(tokens, cwd, os, w);
        status, output, terminated := r.status, r.output, false;
      } else if tokens[0] == "exit" {
        var echo := EchoArguments(tokens);
        status, output, terminated := 0, [Stdout(echo + w.farewell)], true;
      } else {
        status, output, terminated := -1, [], false;
      }
    }
  }
}
