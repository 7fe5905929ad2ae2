/**
 * myshell.c, the plain variant: `parse_command` stores the first 63 words
 * of the line before its newline, with no operator words at all; the
 * builtins differ from mysh.c's only in their messages; and `main` runs a
 * builtin or an external command for each line with words.
 */
module MyShell {
  import opened Common
  import opened Tokens
  import opened Resolver
  import opened Process
  import opened Builtins

  const WORDING: Wording := Wording(
    "cd: HOME environment variable not set\n",
    "cd: expected one argument\n",
    name => "which: command not found: " + name + "\n",
    "mysh: exiting\n")

  const FAILED: string := "Command failed: code "

  /** The tokens `parse_command` stores for `input`: its words before the newline, at most 63. */
  function LineTokens(input: string): (ts: seq<string>)
    ensures |ts| <= MAX_TOKENS - 1 && ts <= Words(CutAtNewline(input))
    ensures |ts| < MAX_TOKENS - 1 ==> ts == Words(CutAtNewline(input))
  {
    Take(Words(CutAtNewline(input)), MAX_TOKENS - 1)
  }

  /** `struct Command` of myshell.c: a NULL slot of `tokens` is None. */
  class Command {
    var tokens: array<Option<string>>
    var tokenCount: int
    var isBuiltin: bool

    /** `malloc` followed by `memset(cmd, 0, sizeof(Command))`. */
    constructor ()
      ensures fresh(tokens) && tokens[..] == Layout([]) && tokenCount == 0 && !isBuiltin
    {
      tokens := new Option<string>[MAX_TOKENS](_ => None);
      tokenCount := 0;
      isBuiltin := false;
      new;
      assert tokens[..] == Layout([]);
    }

    /** `cmd->tokens[cmd->token_count++] = strdup(token)`: the token goes into the first NULL slot. */
    method AddToken(t: string, ghost stored: seq<string>)
      requires tokens.Length == MAX_TOKENS && |stored| < MAX_TOKENS - 1
      requires tokens[..] == Layout(stored) && tokenCount == |stored|
      modifies this, tokens
      ensures tokens == old(tokens) && isBuiltin == old(isBuiltin)
      ensures tokens[..] == Layout(stored + [t]) && tokenCount == |stored| + 1
    {
      LayoutPush(stored, t);
      tokens[tokenCount] := Some(t);
      tokenCount := tokenCount + 1;
    }
  }

  /**
   * `parse_command(input)` of myshell.c: the `strtok` loop stores each word
   * in the next slot while fewer than 63 are stored, then the first token is
   * checked against the builtin names.
   */
  method ParseCommand(input: string) returns (cmd: Command)
    ensures fresh(cmd) && fresh(cmd.tokens)
    ensures cmd.tokens[..] == Layout(LineTokens(input))
    ensures cmd.tokenCount == |LineTokens(input)|
    ensures cmd.isBuiltin == (cmd.tokenCount > 0 && IsBuiltinName(LineTokens(input)[0]))
  {
    cmd := new Command();
    var line := CutAtNewline(input);
    ghost var stored: seq<string> := [];
    var save := line;  // where strtok resumes
    var token := Next(line, ' ');
    while token.Some? && cmd.tokenCount < MAX_TOKENS - 1
      invariant fresh(cmd) && fresh(cmd.tokens) && cmd.tokens.Length == MAX_TOKENS && !cmd.isBuiltin
      invariant |stored| <= MAX_TOKENS - 1 && cmd.tokenCount == |stored|
      invariant cmd.tokens[..] == Layout(stored)
      invariant token == Next(save, ' ')
      invariant stored + Take(Words(save), MAX_TOKENS - 1 - |stored|) == LineTokens(input)
      decreases |save|
    {
      var sc := token.value;
      StoreWord(stored, save, sc);
      cmd.AddToken(sc.token, stored);
      stored := stored + [sc.token];
      save := sc.rest;
      token := Next(save, ' ');
    }
    StopStoring(stored, save);
    if cmd.tokenCount > 0 {
      assert cmd.tokens[0] == Some(stored[0]);
      var first := cmd.tokens[0].value;
      if first == "cd" || first == "pwd" || first == "which" || first == "exit" {
        cmd.isBuiltin := true;
      }
    }
  }

  /** One pass of the token loop: the word read is the next word still to be stored. */
  lemma {:induction false} StoreWord(stored: seq<string>, save: string, sc: Scan)
    requires |stored| < MAX_TOKENS - 1 && Next(save, ' ') == Some(sc)
    ensures stored + Take(Words(save), MAX_TOKENS - 1 - |stored|) ==
              (stored + [sc.token]) + Take(Words(sc.rest), MAX_TOKENS - 1 - (|stored| + 1))
  {
    NextReadsWords(save);
    TakeAppend([sc.token], Words(sc.rest), MAX_TOKENS - 1 - |stored|);
  }

  /** When `strtok` runs out or 63 are stored, no word is left to store. */
  lemma {:induction false} StopStoring(stored: seq<string>, save: string)
    requires |stored| <= MAX_TOKENS - 1
    requires Next(save, ' ').None? || |stored| == MAX_TOKENS - 1
    ensures stored + Take(Words(save), MAX_TOKENS - 1 - |stored|) == stored
  {
    NextReadsWords(save);
  }

  /**
   * The tokens are the words of the line: joining at most 63 words with
   * single spaces, and adding anything after a newline, parses back to
   * exactly those words. `<`, `>` and `|` are words like any other here.
   */
  lemma {:induction false} ParsesWords(ws: seq<string>, after: string)
    requires |ws| <= MAX_TOKENS - 1 && forall i | 0 <= i < |ws| :: Plain(ws[i])
    ensures LineTokens(Unwords(ws) + "\n" + after) == ws
    ensures LineTokens(Unwords(ws)) == ws
  {
    UnwordsNoNewline(ws);
    CutAtFirstNewline(Unwords(ws), after);
    CutWithoutNewline(Unwords(ws));
    WordsOfUnwords(ws);
  }

  /** A line with more than 63 words keeps the first 63, in order. */
  lemma {:induction false} KeepsFirstWords(ws: seq<string>)
    requires |ws| >= MAX_TOKENS - 1 && forall i | 0 <= i < |ws| :: Plain(ws[i])
    ensures LineTokens(Unwords(ws)) == ws[..MAX_TOKENS - 1]
  {
    UnwordsNoNewline(ws);
    CutWithoutNewline(Unwords(ws));
    WordsOfUnwords(ws);
  }

  /** `ls > out | wc` is five tokens; no redirection or pipe is recognised. */
  lemma {:induction false} OperatorsAreWords()
    ensures LineTokens("ls > out | wc\n") == ["ls", ">", "out", "|", "wc"]
  {
    var ws := ["ls", ">", "out", "|", "wc"];
    assert Unwords(ws) == "ls > out | wc";
    ParsesWords(ws, "");
    assert Unwords(ws) + "\n" + "" == "ls > out | wc\n";
  }

  /** What `main` does with one line of myshell.c. */
  datatype Route =
    | Skip                          // a blank line or no tokens
    | Builtin(tokens: seq<string>)  // `execute_builtin(cmd)`
    | External(tokens: seq<string>) // `execute_external_command(cmd, interactive)`

  /** The decision `main` takes for `input`. */
  function Decide(input: string): (r: Route)
    ensures r.Skip? <==> (|input| > 0 && input[0] == '\n') || LineTokens(input) == []
    ensures r.Builtin? ==> r.tokens == LineTokens(input) && IsBuiltinName(r.tokens[0])
    ensures r.External? ==> r.tokens == LineTokens(input) && !IsBuiltinName(r.tokens[0])
    ensures !r.Skip? ==> 0 < |r.tokens| < MAX_TOKENS
  {
    var ts := LineTokens(input);
    if |input| > 0 && input[0] == '\n' then Skip
    else if ts == [] then Skip
    else if IsBuiltinName(ts[0]) then Builtin(ts)
    else External(ts)
  }

  /** Every route that runs a command passes `execute_builtin` a known builtin; -1 never comes back. */
  lemma {:induction false} BuiltinRouteKnown(input: string, cwd: string, os: Os)
    requires Decide(input).Builtin?
    ensures ExecuteBuiltin(Decide(input).tokens, cwd, os, WORDING).status != -1
  {
  }

  /** myshell.c's `cd` messages: HOME unset, and a count other than one or two. */
  lemma {:induction false} CdWording(tokens: seq<string>, cwd: string, os: Os)
    requires |tokens| > 0 && tokens[0] == "cd"
    ensures |tokens| == 1 && os.home.None? ==>
              ExecuteBuiltin(tokens, cwd, os, WORDING) ==
              BuiltinOutcome(1, cwd, [Stderr("cd: HOME environment variable not set\n")], false)
    ensures |tokens| > 2 ==>
              ExecuteBuiltin(tokens, cwd, os, WORDING) == BuiltinOutcome(1, cwd, [Stderr("cd: expected one argument\n")], false)
  {
  }

  /** myshell.c's `which` message for a name that does not resolve. */
  lemma {:induction false} WhichWording(name: string, cwd: string, os: Os)
    requires Resolve(name, os.executable).None?
    ensures ExecuteBuiltin(["which", name], cwd, os, WORDING) ==
              BuiltinOutcome(1, cwd, [Stderr("which: command not found: " + name + "\n")], false)
  {
  }

  /** myshell.c's `exit` farewell, after the echoed arguments. */
  lemma {:induction false} ExitWording(tokens: seq<string>, cwd: string, os: Os)
    requires |tokens| > 0 && tokens[0] == "exit"
    ensures ExecuteBuiltin(tokens, cwd, os, WORDING) ==
              BuiltinOutcome(0, cwd, [Stdout(EchoLine(tokens) + "mysh: exiting\n")], true)
  {
  }

  /** myshell.c's failed-exit report names the code. */
  lemma {:induction false} FailedExitWording(tokens: seq<string>, os: Os, code: nat)
    requires |tokens| > 0 && Resolve(tokens[0], os.executable).Some? && code != 0
    ensures RunExternal(tokens, os.executable, true, Waited(Exited(code)), FAILED) ==
              ExternalOutcome(code, true, [Stderr("Command failed: code " + Decimal(code) + "\n")])
  {
  }
}
