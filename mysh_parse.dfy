/**
 * `parse_command` of mysh.c: the line is cut at its first newline and read
 * word by word with `strtok`; the whole words `<` and `>` take the next word
 * as a redirection target, `|` hands the untokenized rest of the line to a
 * recursive parse for the next pipeline stage, and every other word is
 * stored in the fixed `tokens` array while fewer than 63 are stored.
 */
module MyshParse {
  import opened Common
  import opened Tokens

  /** The value a `Command` holds: its words, flags, targets and next stage. */
  datatype Stage = Stage(
    tokens: seq<string>,
    isBuiltin: bool,
    inputFile: Option<string>,
    outputFile: Option<string>,
    hasPipe: bool,
    next: Option<Stage>)

  /**
   * The outcome of `parse_command`: the stage built, None standing for the
   * NULL returned when `<` or `>` is the last word, and what was written to
   * standard error on the way (by this parse or by a later stage's).
   */
  datatype Parse = Parse(stage: Option<Stage>, diagnostics: seq<Output>)

  const MISSING_INPUT: Output := Stderr("Error: Missing input file\n")
  const MISSING_OUTPUT: Output := Stderr("Error: Missing output file\n")

  /** A freshly `memset` command. */
  const EMPTY: Stage := Stage([], false, None, None, false, None)

  /** The words the parser treats as operators rather than arguments. */
  predicate IsControl(w: string)
  {
    w == "<" || w == ">" || w == "|"
  }

  /** The builtin check after the token loop. */
  function Classify(acc: Stage): (st: Stage)
    ensures st == acc.(isBuiltin := st.isBuiltin)
    ensures st.isBuiltin <==> |acc.tokens| > 0 && IsBuiltinName(acc.tokens[0])
  {
    acc.(isBuiltin := |acc.tokens| > 0 && IsBuiltinName(acc.tokens[0]))
  }

  /** A stage of the first line collected so far, before the builtin check. */
  predicate Accumulating(acc: Stage)
  {
    && |acc.tokens| <= MAX_TOKENS - 1
    && (forall i | 0 <= i < |acc.tokens| :: Plain(acc.tokens[i]) && !IsControl(acc.tokens[i]))
    && (acc.inputFile.Some? ==> Plain(acc.inputFile.value))
    && (acc.outputFile.Some? ==> Plain(acc.outputFile.value))
    && !acc.isBuiltin && !acc.hasPipe && acc.next.None?
  }

  /** What every stage the parser builds satisfies. */
  predicate WellParsed(st: Stage)
  {
    && |st.tokens| <= MAX_TOKENS - 1
    && (forall i | 0 <= i < |st.tokens| :: Plain(st.tokens[i]) && !IsControl(st.tokens[i]))
    && st.isBuiltin == (|st.tokens| > 0 && IsBuiltinName(st.tokens[0]))
    && (st.inputFile.Some? ==> Plain(st.inputFile.value))
    && (st.outputFile.Some? ==> Plain(st.outputFile.value))
    && (st.next.Some? ==> st.hasPipe && WellParsed(st.next.value))
  }

  /**
   * `parse_command(input)`. Every stage it builds has at most 63 plain
   * tokens, none of them an operator, and is marked builtin exactly when its
   * first token is one of the four builtin names; at most one diagnostic is
   * written, and a NULL result always comes with one.
   */
  function ParseLine(input: string): (r: Parse)
    ensures r.stage.Some? ==> WellParsed(r.stage.value)
    ensures r.stage.None? ==> r.diagnostics == [MISSING_INPUT] || r.diagnostics == [MISSING_OUTPUT]
    ensures |r.diagnostics| <= 1
    decreases |input|, 1
  {
    Collect(CutAtNewline(input), EMPTY)
  }

  /**
   * The token loop, resuming at the unread suffix `rest` with the stage
   * collected so far.
   */
  function Collect(rest: string, acc: Stage): (r: Parse)
    requires Accumulating(acc) && '\n' !in rest
    ensures r.stage.Some? ==> WellParsed(r.stage.value)
    ensures r.stage.None? ==> r.diagnostics == [MISSING_INPUT] || r.diagnostics == [MISSING_OUTPUT]
    ensures |r.diagnostics| <= 1
    decreases |rest|, 0
  {
    match Next(rest, ' ')
    case None => Parse(Some(Classify(acc)), [])
    case Some(sc) =>
      if |acc.tokens| >= MAX_TOKENS - 1 then Parse(Some(Classify(acc)), [])
      else if sc.token == "<" then
        match Next(sc.rest, ' ')
        case None => Parse(None, [MISSING_INPUT])
        case Some(f) => Collect(f.rest, acc.(inputFile := Some(f.token)))
      else if sc.token == ">" then
        match Next(sc.rest, ' ')
        case None => Parse(None, [MISSING_OUTPUT])
        case Some(f) => Collect(f.rest, acc.(outputFile := Some(f.token)))
      else if sc.token == "|" then
        var sub := RestOfLine(sc.rest);
        Parse(Some(Classify(acc.(hasPipe := true, next := sub.stage))), sub.diagnostics)
      else Collect(sc.rest, acc.(tokens := acc.tokens + [sc.token]))
  }

  /** `strtok(NULL, "\n")` after a `|`, parsed when there is text left. */
  function RestOfLine(rest: string): (r: Parse)
    requires '\n' !in rest
    ensures |r.diagnostics| <= 1
    ensures r.stage.Some? ==> WellParsed(r.stage.value)
    decreases |rest|, 2
  {
    match Next(rest, '\n')
    case None => Parse(None, [])
    case Some(line) => ParseLine(line.token)
  }

  /** One pass of the token loop on a redirection: `Collect` resumes after the target. */
  lemma {:induction false} CollectRedirect(rest: string, acc: Stage, sc: Scan, f: Scan)
    requires Accumulating(acc) && '\n' !in rest && |acc.tokens| < MAX_TOKENS - 1
    requires Next(rest, ' ') == Some(sc) && (sc.token == "<" || sc.token == ">")
    requires Next(sc.rest, ' ') == Some(f)
    ensures '\n' !in f.rest && Plain(f.token) && |f.rest| < |rest|
    ensures Accumulating(acc.(inputFile := Some(f.token))) && Accumulating(acc.(outputFile := Some(f.token)))
    ensures sc.token == "<" ==> Collect(rest, acc) == Collect(f.rest, acc.(inputFile := Some(f.token)))
    ensures sc.token == ">" ==> Collect(rest, acc) == Collect(f.rest, acc.(outputFile := Some(f.token)))
  {
  }

  /** A redirection operator with no word after it makes the whole parse NULL. */
  lemma {:induction false} CollectMissingTarget(rest: string, acc: Stage, sc: Scan)
    requires Accumulating(acc) && '\n' !in rest && |acc.tokens| < MAX_TOKENS - 1
    requires Next(rest, ' ') == Some(sc) && (sc.token == "<" || sc.token == ">")
    requires Next(sc.rest, ' ').None?
    ensures Collect(rest, acc) == Parse(None, [if sc.token == "<" then MISSING_INPUT else MISSING_OUTPUT])
  {
  }

  /** One pass of the token loop on an ordinary word: it is appended. */
  lemma {:induction false} CollectWord(rest: string, acc: Stage, sc: Scan)
    requires Accumulating(acc) && '\n' !in rest && |acc.tokens| < MAX_TOKENS - 1
    requires Next(rest, ' ') == Some(sc) && !IsControl(sc.token)
    ensures '\n' !in sc.rest && Plain(sc.token) && |sc.rest| < |rest|
    ensures Accumulating(acc.(tokens := acc.tokens + [sc.token]))
    ensures Collect(rest, acc) == Collect(sc.rest, acc.(tokens := acc.tokens + [sc.token]))
  {
  }

  /** The `|` word ends the loop with the next stage parsed from the rest of the line. */
  lemma {:induction false} CollectPipe(rest: string, acc: Stage, sc: Scan)
    requires Accumulating(acc) && '\n' !in rest && |acc.tokens| < MAX_TOKENS - 1
    requires Next(rest, ' ') == Some(sc) && sc.token == "|"
    ensures '\n' !in sc.rest
    ensures Collect(rest, acc) ==
              Parse(Some(Classify(acc.(hasPipe := true, next := RestOfLine(sc.rest).stage))),
                    RestOfLine(sc.rest).diagnostics)
  {
  }

  /** The loop stops when `strtok` runs out or 63 tokens are stored. */
  lemma {:induction false} CollectStop(rest: string, acc: Stage)
    requires Accumulating(acc) && '\n' !in rest
    requires Next(rest, ' ').None? || |acc.tokens| >= MAX_TOKENS - 1
    ensures Collect(rest, acc) == Parse(Some(Classify(acc)), [])
  {
  }

  /** The parse depends only on the text before the first newline. */
  lemma {:induction false} ParseIgnoresAfterNewline(a: string, b: string)
    requires '\n' !in a
    ensures ParseLine(a + "\n" + b) == ParseLine(a)
  {
    CutAtFirstNewline(a, b);
    CutWithoutNewline(a);
  }

  /** The first of the words is read and stored. */
  lemma {:induction false} CollectFirstWord(pre: seq<string>, rest: string, acc: Stage)
    requires Accumulating(acc) && '\n' !in rest && |pre| > 0
    requires forall i | 0 <= i < |pre| :: Plain(pre[i]) && !IsControl(pre[i])
    requires |acc.tokens| + |pre| <= MAX_TOKENS - 1
    ensures '\n' !in Spaced(pre) + rest
    ensures Accumulating(acc.(tokens := acc.tokens + [pre[0]]))
    ensures forall i | 0 <= i < |pre[1..]| :: Plain(pre[1..][i]) && !IsControl(pre[1..][i])
    ensures Collect(Spaced(pre) + rest, acc) == Collect(Spaced(pre[1..]) + rest, acc.(tokens := acc.tokens + [pre[0]]))
    ensures acc.(tokens := acc.tokens + [pre[0]]).(tokens := acc.tokens + [pre[0]] + pre[1..]) ==
              acc.(tokens := acc.tokens + pre)
  {
    assert acc.tokens + [pre[0]] + pre[1..] == acc.tokens + pre;
    SpacedNoNewline(pre);
    var tail := Spaced(pre[1..]) + rest;
    assert Spaced(pre) + rest == pre[0] + " " + tail;
    NextWord(pre[0], tail);
    CollectWord(Spaced(pre) + rest, acc, Scan(pre[0], tail));
  }

  /** Words that are not operators are stored one after another. */
  lemma {:induction false} CollectSpaced(pre: seq<string>, rest: string, acc: Stage)
    requires Accumulating(acc) && '\n' !in rest
    requires forall i | 0 <= i < |pre| :: Plain(pre[i]) && !IsControl(pre[i])
    requires |acc.tokens| + |pre| <= MAX_TOKENS - 1
    ensures '\n' !in Spaced(pre) + rest
    ensures Collect(Spaced(pre) + rest, acc) == Collect(rest, acc.(tokens := acc.tokens + pre))
  {
    SpacedNoNewline(pre);
    if |pre| == 0 {
      assert Spaced(pre) + rest == rest;
      assert acc.(tokens := acc.tokens + pre) == acc;
    } else {
      CollectFirstWord(pre, rest, acc);
      var acc' := acc.(tokens := acc.tokens + [pre[0]]);
      CollectSpaced(pre[1..], rest, acc');
    }
  }

  /** One pass of the loop over a plain line: the first word is stored and the rest is plain too. */
  lemma {:induction false} CollectPlainWord(rest: string, acc: Stage, sc: Scan)
    requires Accumulating(acc) && '\n' !in rest && |acc.tokens| < MAX_TOKENS - 1
    requires forall i | 0 <= i < |Words(rest)| :: !IsControl(Words(rest)[i])
    requires Next(rest, ' ') == Some(sc)
    ensures Words(rest) == [sc.token] + Words(sc.rest)
    ensures '\n' !in sc.rest && Accumulating(acc.(tokens := acc.tokens + [sc.token]))
    ensures forall i | 0 <= i < |Words(sc.rest)| :: !IsControl(Words(sc.rest)[i])
    ensures Collect(rest, acc) == Collect(sc.rest, acc.(tokens := acc.tokens + [sc.token]))
  {
    NextReadsWords(rest);
    assert Words(rest)[0] == sc.token;
    CollectWord(rest, acc, sc);
    assert forall i | 0 <= i < |Words(sc.rest)| :: Words(sc.rest)[i] == Words(rest)[i + 1];
  }

  lemma {:induction false} TakeStep(pre: seq<string>, t: string, ws: seq<string>, n: nat)
    requires 0 < n
    ensures (pre + [t]) + Take(ws, n - 1) == pre + Take([t] + ws, n)
  {
    TakeAppend([t], ws, n);
  }

  /**
   * On a line with no operator words, the token loop stores the words of the
   * line in order until 63 are stored.
   */
  lemma {:induction false} CollectPlain(rest: string, acc: Stage)
    requires Accumulating(acc) && '\n' !in rest
    requires forall i | 0 <= i < |Words(rest)| :: !IsControl(Words(rest)[i])
    ensures Collect(rest, acc) ==
              Parse(Some(Classify(acc.(tokens := acc.tokens + Take(Words(rest), MAX_TOKENS - 1 - |acc.tokens|)))), [])
    decreases |rest|
  {
    var n := MAX_TOKENS - 1 - |acc.tokens|;
    if Next(rest, ' ').None? || n == 0 {
      NextReadsWords(rest);
      CollectStop(rest, acc);
      assert acc.tokens + Take(Words(rest), n) == acc.tokens;
    } else {
      var sc := Next(rest, ' ').value;
      CollectPlainWord(rest, acc, sc);
      var acc' := acc.(tokens := acc.tokens + [sc.token]);
      CollectPlain(sc.rest, acc');
      TakeStep(acc.tokens, sc.token, Words(sc.rest), n);
      assert acc'.(tokens := acc'.tokens + Take(Words(sc.rest), n - 1)) ==
             acc.(tokens := acc.tokens + Take(Words(rest), n));
    }
  }

  /**
   * A line without `<`, `>` or `|` words: the tokens are the space-separated
   * words before the first newline, empty fields skipped, cut to 63; there is
   * no target, no pipe and no diagnostic.
   */
  lemma {:induction false} ParsePlainLine(input: string)
    requires forall i | 0 <= i < |Words(CutAtNewline(input))| :: !IsControl(Words(CutAtNewline(input))[i])
    ensures ParseLine(input) ==
              Parse(Some(Classify(Stage(Take(Words(CutAtNewline(input)), MAX_TOKENS - 1), false, None, None, false, None))), [])
  {
    var cut := CutAtNewline(input);
    var ts := Take(Words(cut), MAX_TOKENS - 1);
    CollectPlain(cut, EMPTY);
    assert EMPTY.(tokens := EMPTY.tokens + ts) == Stage(ts, false, None, None, false, None);
    assert ParseLine(input) == Collect(cut, EMPTY);
  }

  /** A line of at most 63 plain words followed by `rest` starts the loop at `rest`. */
  lemma {:induction false} ParseAfterWords(pre: seq<string>, rest: string)
    requires forall i | 0 <= i < |pre| :: Plain(pre[i]) && !IsControl(pre[i])
    requires |pre| <= MAX_TOKENS - 1 && '\n' !in rest
    ensures ParseLine(Spaced(pre) + rest) == Collect(rest, EMPTY.(tokens := pre))
  {
    CollectSpaced(pre, rest, EMPTY);
    CutWithoutNewline(Spaced(pre) + rest);
    assert EMPTY.tokens + pre == pre;
  }

  /** The loop reading `op f` and resuming at `post`. */
  lemma {:induction false} CollectTarget(op: string, f: string, post: string, acc: Stage)
    requires Accumulating(acc) && |acc.tokens| < MAX_TOKENS - 1
    requires (op == "<" || op == ">") && Plain(f) && '\n' !in post
    ensures '\n' !in op + " " + f + " " + post
    ensures Collect(op + " " + f + " " + post, acc) ==
              Collect(post, if op == "<" then acc.(inputFile := Some(f)) else acc.(outputFile := Some(f)))
  {
    var tail := f + " " + post;
    assert op + " " + f + " " + post == op + " " + tail;
    NextWord(op, tail);
    NextWord(f, post);
    CollectRedirect(op + " " + tail, acc, Scan(op, tail), Scan(f, post));
  }

  /**
   * `<` or `>` followed by a word records that word as the target and stores
   * nothing: the other words are the tokens, in order, cut to 63.
   */
  lemma {:induction false} ParseRedirect(pre: seq<string>, op: string, f: string, post: seq<string>)
    requires forall i | 0 <= i < |pre| :: Plain(pre[i]) && !IsControl(pre[i])
    requires forall i | 0 <= i < |post| :: Plain(post[i]) && !IsControl(post[i])
    requires |pre| < MAX_TOKENS - 1 && (op == "<" || op == ">") && Plain(f)
    ensures ParseLine(Spaced(pre) + (op + " " + f + " " + Unwords(post))) ==
              Parse(Some(Classify(Stage(Take(pre + post, MAX_TOKENS - 1), false,
                                        if op == "<" then Some(f) else None,
                                        if op == ">" then Some(f) else None, false, None))), [])
  {
    UnwordsNoNewline(post);
    CollectTarget(op, f, Unwords(post), EMPTY.(tokens := pre));
    ParseAfterWords(pre, op + " " + f + " " + Unwords(post));
    var acc := EMPTY.(tokens := pre);
    var acc' := if op == "<" then acc.(inputFile := Some(f)) else acc.(outputFile := Some(f));
    WordsOfUnwords(post);
    CollectPlain(Unwords(post), acc');
    TakeAppend(pre, post, MAX_TOKENS - 1);
    var st := Stage(Take(pre + post, MAX_TOKENS - 1), false,
                    if op == "<" then Some(f) else None, if op == ">" then Some(f) else None, false, None);
    assert acc'.(tokens := acc'.tokens + Take(Words(Unwords(post)), MAX_TOKENS - 1 - |acc'.tokens|)) == st;
    assert ParseLine(Spaced(pre) + (op + " " + f + " " + Unwords(post))) == Collect(Unwords(post), acc');
  }

  /** A repeated operator overwrites the earlier target: the later word wins. */
  lemma {:induction false} ParseRedirectRepeated(pre: seq<string>, op: string, f1: string, f2: string, post: string)
    requires forall i | 0 <= i < |pre| :: Plain(pre[i]) && !IsControl(pre[i])
    requires |pre| < MAX_TOKENS - 1 && (op == "<" || op == ">") && Plain(f1) && Plain(f2)
    requires '\n' !in post
    ensures ParseLine(Spaced(pre) + (op + " " + f1 + " " + (op + " " + f2 + " " + post))) ==
            ParseLine(Spaced(pre) + (op + " " + f2 + " " + post))
  {
    var second := op + " " + f2 + " " + post;
    var acc := EMPTY.(tokens := pre);
    CollectTarget(op, f2, post, acc);
    CollectTarget(op, f1, second, acc);
    var acc1 := if op == "<" then acc.(inputFile := Some(f1)) else acc.(outputFile := Some(f1));
    CollectTarget(op, f2, post, acc1);
    ParseAfterWords(pre, op + " " + f1 + " " + second);
    ParseAfterWords(pre, second);
  }

  /** An operator as the last word makes the parse return NULL after its diagnostic. */
  lemma {:induction false} ParseMissingTarget(pre: seq<string>, op: string)
    requires forall i | 0 <= i < |pre| :: Plain(pre[i]) && !IsControl(pre[i])
    requires |pre| < MAX_TOKENS - 1 && (op == "<" || op == ">")
    ensures ParseLine(Spaced(pre) + op) ==
              Parse(None, [if op == "<" then MISSING_INPUT else MISSING_OUTPUT])
  {
    ParseAfterWords(pre, op);
    NextWord(op, "");
    assert Next("", ' ').None?;
    CollectMissingTarget(op, EMPTY.(tokens := pre), Scan(op, ""));
  }

  /**
   * A `|` word sets the pipe flag and ends the stage; the rest of the line,
   * when there is any, is parsed on its own into the next stage, whose
   * diagnostic is the only one written.
   */
  lemma {:induction false} ParsePipe(pre: seq<string>, r: string)
    requires forall i | 0 <= i < |pre| :: Plain(pre[i]) && !IsControl(pre[i])
    requires |pre| < MAX_TOKENS - 1 && '\n' !in r
    ensures ParseLine(Spaced(pre) + ("| " + r)) ==
              Parse(Some(Classify(Stage(pre, false, None, None, true, if r == "" then None else ParseLine(r).stage))),
                    if r == "" then [] else ParseLine(r).diagnostics)
  {
    assert "| " + r == "|" + " " + r;
    ParseAfterWords(pre, "| " + r);
    NextWord("|", r);
    CollectPipe("| " + r, EMPTY.(tokens := pre), Scan("|", r));
    NextLine(r);
  }

  /**
   * The operators of one line act independently: `< in` and `> out` each set
   * their own target and store no token, so `sort < in > out ` keeps only
   * the words before them.
   */
  lemma {:induction false} ParseBothTargets(pre: seq<string>, fin: string, fout: string)
    requires forall i | 0 <= i < |pre| :: Plain(pre[i]) && !IsControl(pre[i])
    requires |pre| < MAX_TOKENS - 1 && Plain(fin) && Plain(fout)
    ensures ParseLine(Spaced(pre) + ("< " + fin + " " + ("> " + fout + " "))) ==
              Parse(Some(Classify(Stage(pre, false, Some(fin), Some(fout), false, None))), [])
  {
    var acc := EMPTY.(tokens := pre);
    var acc1 := acc.(inputFile := Some(fin));
    var acc2 := acc1.(outputFile := Some(fout));
    var out := "> " + fout + " ";
    var line := "< " + fin + " " + out;
    assert out == ">" + " " + fout + " " + "";
    assert line == "<" + " " + fin + " " + out;
    assert Accumulating(acc1) && Accumulating(acc2);
    CollectTarget(">", fout, "", acc1);
    CollectTarget("<", fin, out, acc);
    assert Collect(line, acc) == Collect("", acc2);
    assert Next("", ' ').None?;
    CollectStop("", acc2);
    ParseAfterWords(pre, line);
    assert acc2 == Stage(pre, false, Some(fin), Some(fout), false, None);
  }

  /** The loop reading `< fin > fout | r` after the words of `acc`. */
  lemma {:induction false} CollectTargetsThenPipe(fin: string, fout: string, r: string, acc: Stage)
    requires Accumulating(acc) && |acc.tokens| < MAX_TOKENS - 1
    requires Plain(fin) && Plain(fout) && '\n' !in r
    ensures '\n' !in "< " + fin + " " + ("> " + fout + " " + ("| " + r))
    ensures Collect("< " + fin + " " + ("> " + fout + " " + ("| " + r)), acc) ==
              Parse(Some(Classify(acc.(inputFile := Some(fin), outputFile := Some(fout),
                                       hasPipe := true, next := RestOfLine(r).stage))),
                    RestOfLine(r).diagnostics)
  {
    var bar := "| " + r;
    var out := "> " + fout + " " + bar;
    var line := "< " + fin + " " + out;
    var acc1 := acc.(inputFile := Some(fin));
    var acc2 := acc1.(outputFile := Some(fout));
    assert bar == "|" + " " + r;
    assert out == ">" + " " + fout + " " + bar;
    assert line == "<" + " " + fin + " " + out;
    assert Accumulating(acc1) && Accumulating(acc2);
    assert '\n' !in bar;
    CollectTarget(">", fout, bar, acc1);
    CollectTarget("<", fin, out, acc);
    assert Collect(line, acc) == Collect(bar, acc2);
    NextWord("|", r);
    CollectPipe(bar, acc2, Scan("|", r));
    assert acc2 == acc.(inputFile := Some(fin), outputFile := Some(fout));
  }

  /**
   * Targets set before `|` stay with the first stage, which the pipe then
   * ends: `cat < in > out | r` keeps both targets, sets the pipe flag and
   * parses `r` into the next stage.
   */
  lemma {:induction false} ParseTargetsThenPipe(pre: seq<string>, fin: string, fout: string, r: string)
    requires forall i | 0 <= i < |pre| :: Plain(pre[i]) && !IsControl(pre[i])
    requires |pre| < MAX_TOKENS - 1 && Plain(fin) && Plain(fout) && '\n' !in r
    ensures ParseLine(Spaced(pre) + ("< " + fin + " " + ("> " + fout + " " + ("| " + r)))) ==
              Parse(Some(Classify(Stage(pre, false, Some(fin), Some(fout), true,
                                        if r == "" then None else ParseLine(r).stage))),
                    if r == "" then [] else ParseLine(r).diagnostics)
  {
    CollectTargetsThenPipe(fin, fout, r, EMPTY.(tokens := pre));
    ParseAfterWords(pre, "< " + fin + " " + ("> " + fout + " " + ("| " + r)));
    NextLine(r);
  }

  /** `struct Command`: a NULL slot of `tokens` is None. */
  class Command {
    var tokens: array<Option<string>>
    var tokenCount: int
    var isBuiltin: bool
    var inputFile: Option<string>
    var outputFile: Option<string>
    var hasPipe: bool
    var next: Command?
    ghost var Repr: set<object>

    ghost predicate Valid()
      reads this, Repr
      decreases Repr
    {
      && this in Repr && tokens in Repr
      && tokens.Length == MAX_TOKENS && tokenCount >= 0
      && (next != null ==>
            && next in Repr && next.Repr <= Repr
            && this !in next.Repr && tokens !in next.Repr
            && next.Valid())
    }

    /** The command, and the chain of commands after it, hold the stage `st`. */
    ghost predicate Holds(st: Stage)
      reads this, Repr
      requires Valid()
      decreases Repr
    {
      && |st.tokens| <= MAX_TOKENS
      && tokens[..] == Layout(st.tokens)
      && tokenCount == |st.tokens|
      && isBuiltin == st.isBuiltin
      && inputFile == st.inputFile
      && outputFile == st.outputFile
      && hasPipe == st.hasPipe
      && (next == null <==> st.next.None?)
      && (next != null ==> next.Holds(st.next.value))
    }

    /** `malloc` followed by `memset(cmd, 0, sizeof(Command))`. */
    constructor ()
      ensures Valid() && fresh(Repr) && Repr == {this, tokens}
      ensures next == null && Holds(EMPTY)
    {
      tokens := new Option<string>[MAX_TOKENS](_ => None);
      tokenCount := 0;
      isBuiltin := false;
      inputFile := None;
      outputFile := None;
      hasPipe := false;
      next := null;
      Repr := {this, tokens};
      new;
      assert tokens[..] == Layout([]);
    }

    /** `cmd->tokens[cmd->token_count++] = strdup(token)`: the token goes into the first NULL slot. */
    method AddToken(t: string, ghost st: Stage)
      requires Valid() && Repr == {this, tokens} && next == null && Holds(st) && |st.tokens| < MAX_TOKENS
      modifies this, tokens
      ensures Valid() && Repr == old(Repr) && tokens == old(tokens) && next == null && Holds(st.(tokens := st.tokens + [t]))
    {
      LayoutPush(st.tokens, t);
      tokens[tokenCount] := Some(t);
      tokenCount := tokenCount + 1;
    }

    /** `cmd->has_pipe = 1`. */
    method SetPipe(ghost st: Stage)
      requires Valid() && Repr == {this, tokens} && next == null && Holds(st)
      modifies this
      ensures Valid() && Repr == old(Repr) && tokens == old(tokens) && next == null && Holds(st.(hasPipe := true))
    {
      hasPipe := true;
    }

    /** `cmd->next = parse_command(rest_of_input)`: the chain grows by the commands of `sub`. */
    method Attach(sub: Command?, ghost st: Stage, ghost after: Option<Stage>)
      requires Valid() && Repr == {this, tokens} && next == null && Holds(st)
      requires sub == null <==> after.None?
      requires sub != null ==> sub.Valid() && this !in sub.Repr && tokens !in sub.Repr && sub.Holds(after.value)
      modifies this
      ensures Valid() && tokens == old(tokens) && Repr == old(Repr) + (if sub == null then {} else sub.Repr)
      ensures Holds(st.(next := after))
    {
      next := sub;
      if sub != null {
        Repr := Repr + sub.Repr;
      }
    }

    /** `cmd->input_file = strdup(file)`. */
    method SetInputFile(f: string, ghost st: Stage)
      requires Valid() && Repr == {this, tokens} && next == null && Holds(st)
      modifies this
      ensures Valid() && Repr == old(Repr) && tokens == old(tokens) && next == null && Holds(st.(inputFile := Some(f)))
    {
      inputFile := Some(f);
    }

    /** `cmd->output_file = strdup(file)`. */
    method SetOutputFile(f: string, ghost st: Stage)
      requires Valid() && Repr == {this, tokens} && next == null && Holds(st)
      modifies this
      ensures Valid() && Repr == old(Repr) && tokens == old(tokens) && next == null && Holds(st.(outputFile := Some(f)))
    {
      outputFile := Some(f);
    }
  }

  /** The builtin check of `parse_command`, a loop over the four names. */
  method IsBuiltinToken(first: string) returns (b: bool)
    ensures b == IsBuiltinName(first)
  {
    var names := ["cd", "pwd", "which", "exit"];
    b := false;
    var i := 0;
    while i < |names|
      invariant 0 <= i <= |names|
      invariant !b
      invariant forall j | 0 <= j < i :: first != names[j]
    {
      if first == names[i] {
        b := true;
        break;
      }
      i := i + 1;
    }
    assert names[0] == "cd" && names[1] == "pwd" && names[2] == "which" && names[3] == "exit";
  }

  /**
   * `parse_command` as written: a fresh command, filled in place by the
   * `strtok` loop, NULL (null) when an operator has no target.
   */
  method ParseCommand(input: string) returns (cmd: Command?, diagnostics: seq<Output>)
    ensures ParseLine(input).stage.None? <==> cmd == null
    ensures cmd != null ==> cmd.Valid() && fresh(cmd.Repr) && cmd.Holds(ParseLine(input).stage.value)
    ensures diagnostics == ParseLine(input).diagnostics
    decreases |input|, 1
  {
    var c := new Command();
    var line := CutAtNewline(input);
    ghost var acc := EMPTY;
    ghost var piped := false;
    diagnostics := [];
    var save := line;  // where strtok resumes
    var token := Next(line, ' ');
    while token.Some? && c.tokenCount < MAX_TOKENS - 1
      invariant c.Valid() && fresh(c.Repr) && c.Repr == {c, c.tokens} && c.next == null
      invariant Accumulating(acc) && c.Holds(acc)
      invariant '\n' !in save && |save| <= |input|
      invariant token == Next(save, ' ')
      invariant Collect(save, acc) == ParseLine(input)
      invariant diagnostics == []
      decreases |save|
    {
      var sc := token.value;
      if sc.token == "<" {
        var file := Next(sc.rest, ' ');
        if file.None? {
          CollectMissingTarget(save, acc, sc);
          return null, [MISSING_INPUT];
        }
        CollectRedirect(save, acc, sc, file.value);
        c.SetInputFile(file.value.token, acc);
        acc := acc.(inputFile := Some(file.value.token));
        save := file.value.rest;
      } else if sc.token == ">" {
        var file := Next(sc.rest, ' ');
        if file.None? {
          CollectMissingTarget(save, acc, sc);
          return null, [MISSING_OUTPUT];
        }
        CollectRedirect(save, acc, sc, file.value);
        c.SetOutputFile(file.value.token, acc);
        acc := acc.(outputFile := Some(file.value.token));
        save := file.value.rest;
      } else if sc.token == "|" {
        CollectPipe(save, acc, sc);
        ghost var next;
        next, diagnostics := LinkNextStage(c, sc.rest, acc);
        acc := acc.(hasPipe := true, next := next);
        piped := true;
        break;
      } else {
        CollectWord(save, acc, sc);
        c.AddToken(sc.token, acc);
        acc := acc.(tokens := acc.tokens + [sc.token]);
        save := sc.rest;
      }
      token := Next(save, ' ');
    }
    if !piped {
      CollectStop(save, acc);
    }
    MarkBuiltin(c, acc);
    cmd := c;
  }

  /** The builtin check that ends `parse_command`, on the first token only. */
  method MarkBuiltin(c: Command, ghost st: Stage)
    requires c.Valid() && c.Holds(st) && !st.isBuiltin
    modifies c
    ensures c.Valid() && c.Repr == old(c.Repr) && c.Holds(Classify(st))
  {
    if c.tokenCount > 0 {
      assert c.tokens[0] == Layout(st.tokens)[0];
      var b := IsBuiltinToken(c.tokens[0].value);
      c.isBuiltin := b;
    }
  }

  /**
   * The `|` branch of the token loop: mark the pipe, and when
   * `strtok(NULL, "\n")` finds more text, parse it into the next stage.
   */
  method LinkNextStage(c: Command, rest: string, ghost acc: Stage)
      returns (ghost next: Option<Stage>, diagnostics: seq<Output>)
    requires c.Valid() && c.next == null && c.Repr == {c, c.tokens}
    requires c.Holds(acc) && '\n' !in rest
    modifies c
    ensures c.Valid() && fresh(c.Repr - {c, c.tokens}) && c.tokens == old(c.tokens)
    ensures next == RestOfLine(rest).stage && diagnostics == RestOfLine(rest).diagnostics
    ensures c.Holds(acc.(hasPipe := true, next := next))
    decreases |rest|, 2
  {
    c.SetPipe(acc);
    var restOfInput := Next(rest, '\n');
    next := None;
    diagnostics := [];
    if restOfInput.Some? {
      var sub;
      sub, diagnostics := ParseCommand(restOfInput.value.token);
      next := ParseLine(restOfInput.value.token).stage;
      c.Attach(sub, acc.(hasPipe := true), next);
    }
  }
}
