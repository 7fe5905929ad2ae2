/**
 * What mysh.c does with a parsed line: its builtins' messages, its
 * `execute_external_command`, and the choice `main` makes for each line
 * read — skip it, run a builtin, hand two stages to `handle_pipeline`, or
 * run an external command — after `expand_wildcards` on the first stage.
 */
module Mysh {
  import opened Common
  import opened Tokens
  import opened Resolver
  import opened Process
  import opened Builtins
  import opened MyshParse
  import opened MyshWildcards
  import opened MyshWildcardFacts
  import opened Glob

  const WORDING: Wording := Wording(
    "cd: HOME not set\n",
    "cd: too many arguments\n",
    name => "which: " + name + " not found\n",
    "Exiting my shell.\n")

  const FAILED: string := "Command failed: exit code "

  /**
   * `execute_external_command` of mysh.c. None stands for the write
   * `tokens[token_count] = NULL` falling outside the 64 slots, which happens
   * once a name resolves with 64 tokens (possible after expansion).
   */
  function ExecuteExternal(tokens: seq<string>, os: Os, interactive: bool, spawn: Spawn): (r: Option<ExternalOutcome>)
    requires |tokens| > 0
    ensures r.None? <==> Resolve(tokens[0], os.executable).Some? && |tokens| >= MAX_TOKENS
    ensures Resolve(tokens[0], os.executable).None? ==>
              r == Some(ExternalOutcome(127, false, [Stderr(tokens[0] + ": command not found\n")]))
    ensures r.Some? && r.value.forked ==> spawn.Waited? && r.value.status == ExitStatusByte(spawn.status)
    ensures r.Some? && r.value.forked ==>
              r.value.output == (if StatusReport(spawn.status, interactive, FAILED).Some?
                                 then [StatusReport(spawn.status, interactive, FAILED).value] else [])
    ensures Resolve(tokens[0], os.executable).Some? && spawn.ForkFails? ==>
              r == (if |tokens| >= MAX_TOKENS then None else Some(ExternalOutcome(1, false, [Perror("fork")])))
  {
    if Resolve(tokens[0], os.executable).Some? && |tokens| >= MAX_TOKENS then None
    else Some(RunExternal(tokens, os.executable, interactive, spawn, FAILED))
  }

  /** The strings in the first `n` slots, all of them non-NULL. */
  function Filled(slots: seq<Option<string>>, n: nat): (ts: seq<string>)
    requires n <= |slots| && forall j | 0 <= j < n :: slots[j].Some?
    ensures |ts| == n && forall j | 0 <= j < n :: slots[j] == Some(ts[j])
  {
    seq(n, j requires 0 <= j < n => slots[j].value)
  }

  lemma {:induction false} FilledLayout(ts: seq<string>)
    requires |ts| <= MAX_TOKENS
    ensures Filled(Layout(ts), |ts|) == ts
  {
  }

  /** What `ExpandStage` builds on, gathered from the expansion lemmas. */
  lemma {:induction false} ExpandFacts(ts: seq<string>, listing: Option<seq<string>>)
    requires |ts| < MAX_TOKENS
    ensures var e := Expand(Layout(ts), |ts|, listing);
            && (e.status == Completed ==> e.count <= MAX_TOKENS && forall j | 0 <= j < e.count :: e.slots[j].Some?)
            && (e.status == OpendirFailed ==> listing.None?)
            && (listing.None? ==> e.slots == Layout(ts) && e.count == |ts|)
            && ((forall i | 0 <= i < |ts| :: '*' !in ts[i]) ==> e == Expansion(Layout(ts), |ts|, Completed, []))
            && (0 < |ts| && '*' !in ts[0] ==> e.slots[0] == Some(ts[0]))
  {
    var slots := Layout(ts);
    ExpandCompletedFilled(slots, |ts|, 0, listing, []);
    ExpandOpendirMeansNoListing(slots, |ts|, 0, listing, []);
    if listing.None? {
      ExpandWithoutListing(slots, |ts|, 0, []);
    }
    if forall i | 0 <= i < |ts| :: '*' !in ts[i] {
      ExpandNoPatterns(slots, |ts|, listing);
    }
    if 0 < |ts| && '*' !in ts[0] {
      ExpandKeepsPlainFirst(slots, |ts|, listing);
    }
  }

  /** The first stage's tokens after `expand_wildcards`, None when the model stops at a fault. */
  datatype Expanded = Expanded(tokens: Option<seq<string>>, status: Status, diagnostics: seq<Output>)

  /**
   * `expand_wildcards(cmd)` on a parsed command with tokens `ts`. It goes on
   * to execution when it completes and when `opendir` fails; in the second
   * case the tokens are as parsed.
   */
  function ExpandStage(ts: seq<string>, listing: Option<seq<string>>): (x: Expanded)
    requires |ts| < MAX_TOKENS
    ensures x.tokens.Some? <==> x.status == Completed || x.status == OpendirFailed
    ensures x.tokens.Some? ==> |ts| <= |x.tokens.value| <= MAX_TOKENS
    ensures x.status == OpendirFailed ==> listing.None? && x.tokens == Some(ts)
    ensures listing.None? && x.tokens.Some? ==> x.tokens.value == ts
    ensures var e := Expand(Layout(ts), |ts|, listing);
            && x.status == e.status && x.diagnostics == e.diagnostics
            && (x.status == Completed ==>
                  |x.tokens.value| == e.count && forall j | 0 <= j < e.count :: e.slots[j] == Some(x.tokens.value[j]))
    ensures (forall i | 0 <= i < |ts| :: '*' !in ts[i]) ==> x == Expanded(Some(ts), Completed, [])
    ensures 0 < |ts| && '*' !in ts[0] && x.tokens.Some? ==> x.tokens.value[0] == ts[0]
  {
    ExpandFacts(ts, listing);
    FilledLayout(ts);
    var e := Expand(Layout(ts), |ts|, listing);
    if e.status == Completed then Expanded(Some(Filled(e.slots, e.count)), Completed, e.diagnostics)
    else if e.status == OpendirFailed then Expanded(Some(ts), OpendirFailed, e.diagnostics)
    else Expanded(None, e.status, e.diagnostics)
  }

  /** What `main` does with one line. */
  datatype Route =
    | Skip                                         // a blank line, a NULL parse, or no tokens
    | Faulted(status: Status)                      // `expand_wildcards` reaches undefined behaviour
    | Builtin(tokens: seq<string>)                 // `execute_builtin(cmd)`
    | Pipeline(first: seq<string>, second: Stage)  // `handle_pipeline(cmd, cmd->next)`
    | External(tokens: seq<string>)                // `execute_external_command(cmd, interactive)`

  /** The route and what was written to stderr before it was taken. */
  datatype Dispatch = Dispatch(output: seq<Output>, route: Route)

  /** A line whose first character is the newline. */
  predicate BlankLine(input: string)
  {
    |input| > 0 && input[0] == '\n'
  }

  /** A line about to be executed: the parsed first stage and its expanded tokens. */
  datatype Prepared =
    | Skipped(output: seq<Output>)
    | Stopped(output: seq<Output>, status: Status)
    | Ready(output: seq<Output>, stage: Stage, tokens: seq<string>)

  /** `main` up to the choice: the newline check, the parse, the empty check, the expansion. */
  function Prepare(input: string, listing: Option<seq<string>>): (p: Prepared)
    ensures p.Skipped? <==>
              BlankLine(input) || ParseLine(input).stage.None? || |ParseLine(input).stage.value.tokens| == 0
    ensures BlankLine(input) ==> p == Skipped([])
    ensures !BlankLine(input) ==> ParseLine(input).diagnostics <= p.output
    ensures p.Skipped? && !BlankLine(input) ==> p.output == ParseLine(input).diagnostics
    ensures !p.Skipped? ==>
              p.output == ParseLine(input).diagnostics + ExpandStage(ParseLine(input).stage.value.tokens, listing).diagnostics
    ensures p.Stopped? <==>
              && !BlankLine(input) && ParseLine(input).stage.Some? && |ParseLine(input).stage.value.tokens| > 0
              && ExpandStage(ParseLine(input).stage.value.tokens, listing).tokens.None?
    ensures p.Stopped? ==> p.status == ExpandStage(ParseLine(input).stage.value.tokens, listing).status
    ensures p.Ready? ==>
              && ParseLine(input).stage == Some(p.stage) && |p.stage.tokens| > 0
              && Some(p.tokens) == ExpandStage(p.stage.tokens, listing).tokens
              && |p.stage.tokens| <= |p.tokens| <= MAX_TOKENS
              && ('*' !in p.stage.tokens[0] ==> p.tokens[0] == p.stage.tokens[0])
  {
    if BlankLine(input) then Skipped([])
    else
      var parse := ParseLine(input);
      if parse.stage.None? || |parse.stage.value.tokens| == 0 then Skipped(parse.diagnostics)
      else
        var st := parse.stage.value;
        var x := ExpandStage(st.tokens, listing);
        match x.tokens
        case None => Stopped(parse.diagnostics + x.diagnostics, x.status)
        case Some(ts) => Ready(parse.diagnostics + x.diagnostics, st, ts)
  }

  /** The `if` of `main`, as written: builtin first, then a pipe with a next stage, then external. */
  function Choose(st: Stage, ts: seq<string>): (r: Route)
    ensures r.Builtin? <==> st.isBuiltin
    ensures r.Pipeline? <==> !st.isBuiltin && st.hasPipe && st.next.Some?
    ensures r.External? <==> !st.isBuiltin && !(st.hasPipe && st.next.Some?)
    ensures r.Builtin? || r.External? ==> r.tokens == ts
    ensures r.Pipeline? ==> r.first == ts && Some(r.second) == st.next
  {
    if st.isBuiltin then Builtin(ts)
    else if st.hasPipe && st.next.Some? then Pipeline(ts, st.next.value)
    else External(ts)
  }

  lemma {:induction false} BuiltinNameHasNoStar(w: string)
    ensures IsBuiltinName(w) ==> '*' !in w
  {
  }

  /** The decision `main` takes for the line `input`, under the directory listing `listing`. */
  function Decide(input: string, listing: Option<seq<string>>): (d: Dispatch)
    ensures BlankLine(input) ==> d == Dispatch([], Skip)
    ensures d.route.Skip? <==>
              BlankLine(input) || ParseLine(input).stage.None? || |ParseLine(input).stage.value.tokens| == 0
    ensures !BlankLine(input) ==> ParseLine(input).diagnostics <= d.output
    ensures d.route.Builtin? ==>
              && ParseLine(input).stage.Some? && ParseLine(input).stage.value.isBuiltin
              && |d.route.tokens| > 0 && d.route.tokens[0] == ParseLine(input).stage.value.tokens[0]
              && IsBuiltinName(d.route.tokens[0])
    ensures d.route.Pipeline? ==>
              && ParseLine(input).stage.Some? && !ParseLine(input).stage.value.isBuiltin
              && ParseLine(input).stage.value.hasPipe
              && ParseLine(input).stage.value.next == Some(d.route.second)
              && 0 < |d.route.first| <= MAX_TOKENS
    ensures d.route.External? ==>
              && ParseLine(input).stage.Some? && !ParseLine(input).stage.value.isBuiltin
              && 0 < |d.route.tokens| <= MAX_TOKENS
    ensures d.output == Prepare(input, listing).output
    ensures d.route.Faulted? <==> Prepare(input, listing).Stopped?
    ensures d.route.Faulted? ==> d.route.status == Prepare(input, listing).status
    ensures Prepare(input, listing).Ready? ==>
              var p := Prepare(input, listing);
              && (d.route.Builtin? <==> p.stage.isBuiltin)
              && (d.route.Pipeline? <==> !p.stage.isBuiltin && p.stage.hasPipe && p.stage.next.Some?)
              && (d.route.External? <==> !p.stage.isBuiltin && !(p.stage.hasPipe && p.stage.next.Some?))
              && (d.route.Builtin? || d.route.External? ==> d.route.tokens == p.tokens)
              && (d.route.Pipeline? ==> d.route.first == p.tokens)
  {
    match Prepare(input, listing)
    case Skipped(out) => Dispatch(out, Skip)
    case Stopped(out, status) => Dispatch(out, Faulted(status))
    case Ready(out, st, ts) =>
      BuiltinNameHasNoStar(st.tokens[0]);
      Dispatch(out, Choose(st, ts))
  }

  /** Tokens whose only `*` word is the last one, with matches that fit the slots and hold no `*`. */
  predicate OnlyLastPattern(ts: seq<string>, entries: seq<string>)
  {
    && 0 < |ts| && (forall j | 0 <= j < |ts| - 1 :: '*' !in ts[j]) && '*' in ts[|ts| - 1]
    && var ms := Matching(entries, ts[|ts| - 1]);
       |ts| - 1 + |ms| <= MAX_TOKENS && forall j | 0 <= j < |ms| :: '*' !in ms[j]
  }

  /** The "No matches" line for a last pattern without matches, and nothing otherwise. */
  function LastPatternNote(ts: seq<string>, entries: seq<string>): seq<Output>
    requires 0 < |ts|
  {
    if Matching(entries, ts[|ts| - 1]) == [] then [NoMatches(ts[|ts| - 1])] else []
  }

  /**
   * When the only pattern of the first stage is its last token, the stage
   * runs with that pattern spliced over the listing: its matches in its
   * place, or the pattern itself after a "No matches" line.
   */
  lemma {:induction false} ExpandStageLastPattern(ts: seq<string>, entries: seq<string>)
    requires |ts| < MAX_TOKENS && OnlyLastPattern(ts, entries)
    ensures ExpandStage(ts, Some(entries)) == Expanded(Some(Spliced(ts, entries)), Completed, LastPatternNote(ts, entries))
  {
    ExpandLastPattern(ts, entries);
    var r := Spliced(ts, entries);
    assert |r| <= MAX_TOKENS;
    var x := ExpandStage(ts, Some(entries));
    assert x.tokens.value == r;
  }

  /** The same at the level of a line: what `main` runs is the first stage with its last pattern spliced. */
  lemma {:induction false} DecideLastPattern(input: string, entries: seq<string>)
    requires !BlankLine(input) && ParseLine(input).stage.Some?
    requires OnlyLastPattern(ParseLine(input).stage.value.tokens, entries)
    ensures var st := ParseLine(input).stage.value;
            Prepare(input, Some(entries)) ==
              Ready(ParseLine(input).diagnostics + LastPatternNote(st.tokens, entries), st, Spliced(st.tokens, entries))
    ensures var st := ParseLine(input).stage.value;
            Decide(input, Some(entries)) ==
              Dispatch(ParseLine(input).diagnostics + LastPatternNote(st.tokens, entries), Choose(st, Spliced(st.tokens, entries)))
  {
    ExpandStageLastPattern(ParseLine(input).stage.value.tokens, entries);
  }

  lemma {:induction false} LsStarWords(line: string)
    requires line == "ls *.txt"
    ensures Words(CutAtNewline(line)) == ["ls", "*.txt"]
  {
    var ws := ["ls", "*.txt"];
    assert Unwords(ws) == line by {
      assert Unwords(ws[1..]) == "*.txt";
    }
    assert Plain(ws[0]) && Plain(ws[1]);
    WordsOfUnwords(ws);
    CutWithoutNewline(line);
  }

  /** `ls *.txt` parses to the two words, with no target, no pipe and no message. */
  lemma {:induction false} LsStarParse(line: string)
    requires line == "ls *.txt"
    ensures ParseLine(line) == Parse(Some(Stage(["ls", "*.txt"], false, None, None, false, None)), [])
  {
    LsStarWords(line);
    PlainWordsParse(line, ["ls", "*.txt"]);
  }

  /** A line whose words are two plain words, not operators, the first not a builtin name. */
  lemma {:induction false} PlainWordsParse(line: string, ws: seq<string>)
    requires Words(CutAtNewline(line)) == ws && |ws| == 2
    requires !IsControl(ws[0]) && !IsControl(ws[1]) && !IsBuiltinName(ws[0])
    ensures ParseLine(line) == Parse(Some(Stage(ws, false, None, None, false, None)), [])
  {
    ParsePlainLine(line);
    assert Take(ws, MAX_TOKENS - 1) == ws;
  }

  /** `*.txt` over the listing `a.txt` splices to `a.txt`. */
  lemma {:induction false} LsStarSplice()
    ensures Matching(["a.txt"], "*.txt") == ["a.txt"]
    ensures Spliced(["ls", "*.txt"], ["a.txt"]) == ["ls", "a.txt"]
  {
    assert ['*'] + ".txt" == "*.txt";
    StarSuffix(".txt", "a.txt");
    assert ["a.txt"][1..] == [];
    SplicedPattern(["ls"], "*.txt", [], ["a.txt"]);
    assert ["ls"] + ["*.txt"] + [] == ["ls", "*.txt"];
  }

  /** `ls *.txt` over the listing `a.txt` runs `ls a.txt`, with nothing written first. */
  lemma {:induction false} LastPatternExample(line: string, entries: seq<string>)
    requires line == "ls *.txt" && entries == ["a.txt"]
    ensures Decide(line, Some(entries)) == Dispatch([], External(["ls", "a.txt"]))
  {
    LsStarParse(line);
    LsStarSplice();
    var ts := ["ls", "*.txt"];
    assert !BlankLine(line);
    assert OnlyLastPattern(ts, entries) by {
      assert '*' !in ts[0] && '*' in ts[1] && '*' !in entries[0];
    }
    DecideLastPattern(line, entries);
    assert LastPatternNote(ts, entries) == [];
    var none: seq<Output> := [];
    assert none + none == none;
  }

  /**
   * Which way a line goes is fixed before expansion: two listings that both
   * let expansion finish lead to the same kind of route, with the same
   * second stage for a pipeline.
   */
  lemma {:induction false} RouteFixedBeforeExpansion(input: string, a: Option<seq<string>>, b: Option<seq<string>>)
    requires !Decide(input, a).route.Faulted? && !Decide(input, b).route.Faulted?
    ensures Decide(input, a).route.Skip? <==> Decide(input, b).route.Skip?
    ensures Decide(input, a).route.Builtin? <==> Decide(input, b).route.Builtin?
    ensures Decide(input, a).route.External? <==> Decide(input, b).route.External?
    ensures Decide(input, a).route.Pipeline? <==> Decide(input, b).route.Pipeline?
    ensures Decide(input, a).route.Pipeline? ==> Decide(input, a).route.second == Decide(input, b).route.second
  {
  }

  /** Words without `<`, `>`, `|` or `*`, the ones a plain line consists of. */
  predicate Simple(ws: seq<string>)
  {
    forall i | 0 <= i < |ws| :: Plain(ws[i]) && !IsControl(ws[i]) && '*' !in ws[i]
  }

  /**
   * A line of simple words runs its first 63 words before the newline: as a
   * builtin when the first is a builtin name, otherwise as an external
   * command; a line without words is skipped. Nothing is written first.
   */
  lemma {:induction false} SimpleLine(input: string, listing: Option<seq<string>>)
    requires !BlankLine(input)
    requires forall i | 0 <= i < |Words(CutAtNewline(input))| ::
               !IsControl(Words(CutAtNewline(input))[i]) && '*' !in Words(CutAtNewline(input))[i]
    ensures var ts := Take(Words(CutAtNewline(input)), MAX_TOKENS - 1);
            Decide(input, listing) ==
              Dispatch([], if ts == [] then Skip else if IsBuiltinName(ts[0]) then Builtin(ts) else External(ts))
  {
    ParsePlainLine(input);
    var ts := Take(Words(CutAtNewline(input)), MAX_TOKENS - 1);
    assert forall i | 0 <= i < |ts| :: ts[i] == Words(CutAtNewline(input))[i];
    if ts != [] {
      assert ExpandStage(ts, listing) == Expanded(Some(ts), Completed, []);
      var none: seq<Output> := [];
      assert none + none == none;
    }
  }

  lemma {:induction false} SpacedNotBlank(pre: seq<string>, rest: string)
    requires |pre| > 0 && Plain(pre[0])
    ensures !BlankLine(Spaced(pre) + rest)
  {
    assert (Spaced(pre) + rest)[0] == pre[0][0];
  }

  /**
   * The builtin check comes before the pipe check: a builtin before `|` runs
   * alone, and the rest of the line is still parsed, so its diagnostic is
   * still written.
   */
  lemma {:induction false} BuiltinIgnoresPipe(pre: seq<string>, r: string, listing: Option<seq<string>>)
    requires 0 < |pre| < MAX_TOKENS - 1 && Simple(pre) && IsBuiltinName(pre[0]) && '\n' !in r
    ensures Decide(Spaced(pre) + ("| " + r), listing) ==
              Dispatch(if r == "" then [] else ParseLine(r).diagnostics, Builtin(pre))
  {
    ParsePipe(pre, r);
    SpacedNotBlank(pre, "| " + r);
    assert ExpandStage(pre, listing) == Expanded(Some(pre), Completed, []);
    var diagnostics: seq<Output> := if r == "" then [] else ParseLine(r).diagnostics;
    assert diagnostics + [] == diagnostics;
  }

  /**
   * A non-builtin stage before `|` goes to `handle_pipeline` exactly when the
   * text after `|` parses to a stage; when nothing follows, or the rest of
   * the line parses to NULL, it runs alone as an external command.
   */
  lemma {:induction false} PipelineWhenSecondStage(pre: seq<string>, r: string, listing: Option<seq<string>>)
    requires 0 < |pre| < MAX_TOKENS - 1 && Simple(pre) && !IsBuiltinName(pre[0]) && '\n' !in r
    ensures Decide(Spaced(pre) + ("| " + r), listing).route ==
              if r != "" && ParseLine(r).stage.Some? then Pipeline(pre, ParseLine(r).stage.value) else External(pre)
  {
    ParsePipe(pre, r);
    SpacedNotBlank(pre, "| " + r);
    assert ExpandStage(pre, listing) == Expanded(Some(pre), Completed, []);
  }

  /** Text made of spaces only, which `strtok(NULL, "\n")` returns but which holds no word. */
  predicate Blanks(r: string)
  {
    |r| > 0 && forall i | 0 <= i < |r| :: r[i] == ' '
  }

  lemma {:induction false} ParseBlanks(r: string)
    requires Blanks(r)
    ensures ParseLine(r) == Parse(Some(EMPTY), [])
  {
    CutWithoutNewline(r);
  }

  /**
   * As written, `|` followed only by spaces hands `handle_pipeline` a second
   * stage with no tokens, whose `execute_external_command` then reads the
   * NULL `tokens[0]`.
   */
  lemma {:induction false} EmptySecondStage(pre: seq<string>, r: string, listing: Option<seq<string>>)
    requires 0 < |pre| < MAX_TOKENS - 1 && Simple(pre) && !IsBuiltinName(pre[0]) && Blanks(r)
    ensures Decide(Spaced(pre) + ("| " + r), listing).route == Pipeline(pre, EMPTY)
    ensures |EMPTY.tokens| == 0
  {
    ParseBlanks(r);
    PipelineWhenSecondStage(pre, r, listing);
  }

  /** The line `ls |  ` (two spaces after the bar) is one such line. */
  lemma {:induction false} EmptySecondStageExample(listing: Option<seq<string>>)
    ensures Decide("ls |  ", listing).route == Pipeline(["ls"], EMPTY)
  {
    assert Spaced(["ls"]) + ("| " + " ") == "ls |  ";
    EmptySecondStage(["ls"], " ", listing);
  }

  /** The choice as intended: a pipeline needs a second stage with at least one token. */
  function ChooseCorrected(st: Stage, ts: seq<string>): Route
  {
    if st.isBuiltin then Builtin(ts)
    else if st.hasPipe && st.next.Some? && |st.next.value.tokens| > 0 then Pipeline(ts, st.next.value)
    else External(ts)
  }

  function DecideCorrected(input: string, listing: Option<seq<string>>): (d: Dispatch)
    ensures d.route.Pipeline? ==> 0 < |d.route.first| && 0 < |d.route.second.tokens|
    ensures d.route.External? ==> 0 < |d.route.tokens|
  {
    match Prepare(input, listing)
    case Skipped(out) => Dispatch(out, Skip)
    case Stopped(out, status) => Dispatch(out, Faulted(status))
    case Ready(out, st, ts) => Dispatch(out, ChooseCorrected(st, ts))
  }

  /**
   * The corrected choice differs from the written one only on a pipeline
   * whose second stage is empty, which it runs as the first stage alone.
   */
  lemma {:induction false} CorrectedDiffersOnlyOnEmptyStage(input: string, listing: Option<seq<string>>)
    ensures DecideCorrected(input, listing).output == Decide(input, listing).output
    ensures DecideCorrected(input, listing).route != Decide(input, listing).route ==>
              && Decide(input, listing).route.Pipeline?
              && |Decide(input, listing).route.second.tokens| == 0
              && DecideCorrected(input, listing).route == External(Decide(input, listing).route.first)
  {
  }

  /** With the correction, `|` followed by spaces only runs the first stage as a trailing `|` would. */
  lemma {:induction false} CorrectedBlanksAfterPipe(pre: seq<string>, r: string, listing: Option<seq<string>>)
    requires 0 < |pre| < MAX_TOKENS - 1 && Simple(pre) && !IsBuiltinName(pre[0]) && Blanks(r)
    ensures DecideCorrected(Spaced(pre) + ("| " + r), listing).route == External(pre)
    ensures DecideCorrected(Spaced(pre) + "| ", listing).route == External(pre)
  {
    ParseBlanks(r);
    ParsePipe(pre, r);
    ParsePipe(pre, "");
    assert "| " + "" == "| ";
    SpacedNotBlank(pre, "| " + r);
    SpacedNotBlank(pre, "| ");
    assert ExpandStage(pre, listing) == Expanded(Some(pre), Completed, []);
  }

  /** mysh.c's `cd` messages: HOME unset, and more than one argument. */
  lemma {:induction false} CdWording(tokens: seq<string>, cwd: string, os: Os)
    requires |tokens| > 0 && tokens[0] == "cd"
    ensures |tokens| == 1 && os.home.None? ==>
              ExecuteBuiltin(tokens, cwd, os, WORDING) == BuiltinOutcome(1, cwd, [Stderr("cd: HOME not set\n")], false)
    ensures |tokens| > 2 ==>
              ExecuteBuiltin(tokens, cwd, os, WORDING) == BuiltinOutcome(1, cwd, [Stderr("cd: too many arguments\n")], false)
  {
  }

  /** mysh.c's `which` message for a name that does not resolve. */
  lemma {:induction false} WhichWording(name: string, cwd: string, os: Os)
    requires Resolve(name, os.executable).None?
    ensures ExecuteBuiltin(["which", name], cwd, os, WORDING) ==
              BuiltinOutcome(1, cwd, [Stderr("which: " + name + " not found\n")], false)
  {
  }

  /** mysh.c's `exit` farewell, after the echoed arguments. */
  lemma {:induction false} ExitWording(tokens: seq<string>, cwd: string, os: Os)
    requires |tokens| > 0 && tokens[0] == "exit"
    ensures ExecuteBuiltin(tokens, cwd, os, WORDING) ==
              BuiltinOutcome(0, cwd, [Stdout(EchoLine(tokens) + "Exiting my shell.\n")], true)
  {
  }

  /** mysh.c's failed-exit report names the exit code. */
  lemma {:induction false} FailedExitWording(tokens: seq<string>, os: Os, code: nat)
    requires |tokens| > 0 && Resolve(tokens[0], os.executable).Some? && |tokens| < MAX_TOKENS && code != 0
    ensures ExecuteExternal(tokens, os, true, Waited(Exited(code))) ==
              Some(ExternalOutcome(code, true, [Stderr("Command failed: exit code " + Decimal(code) + "\n")]))
  {
  }
}
