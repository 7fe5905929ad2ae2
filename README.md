# mysh and myshell: parsing and dispatch, in Dafny

This project models the decision logic of two small POSIX shells written in C.
`mysh.c` is the full shell. It has `<` and `>` redirection, a two-stage `|`
pipeline and `*` wildcards. `myshell.c` is the simpler one, with plain words only.
Both shells read one line and do four things with it:

- cut it at its first newline and split it with `strtok(_, " ")` into at most 63 tokens, held in a 64-slot `tokens` array;
- mark the command as a builtin when its first token is `cd`, `pwd`, `which` or `exit`;
- in mysh.c only, expand every token that contains `*` against the current directory;
- run a builtin, two pipeline stages or an external command, and report a failed or killed child.

The modules follow both programs:

- `Common`: the output events (`Stdout`, `Stderr`, `perror`), a decoded wait status, the operating-system answers, and `%d` formatting.
- `Tokens`: the newline cut and `strtok`. The suffix not yet read stands for `strtok`'s saved pointer. `Words` is the reference meaning: split at single spaces, drop empty fields. It also holds the echo loop of `exit`.
- `Glob`: `fnmatch(pattern, name, 0)` for `*`, `?`, backslash and literal characters. These rules come from section 2.13 "Pattern Matching Notation" of POSIX.1-2017 (XCU).
- `Resolver`: `find_executable`, which is identical in both files.
- `Process`: `handle_exit_status` and the parent's side of `execute_external_command`.
- `Builtins`: the four builtins and `execute_builtin`. A `Wording` value carries the messages in which the two shells differ. The class `Shell` holds the working directory that `cd` changes.
- `MyshParse`: mysh.c's `parse_command`, in two forms:
  - `ParseLine`/`Collect`, a function from the line to a `Stage` value;
  - the method `ParseCommand`, which fills a `Command` object in place. It has a 64-slot `tokens` array and a `next` link to the next stage's `Command`. The method is proved to build exactly the stage `ParseLine` describes.
- `MyshWildcards`: `expand_wildcards` as written, specified by the function `ExpandFrom` and implemented in place on the `Command` by `ExpandWildcards`.
- `MyshWildcardFacts`: what the expansion does and does not do, and where it differs from splicing.
- `Mysh` and `MyShell`: each shell's messages and the choice its `main` loop makes for one line.

The operating system is given as inputs:

- `Os.home` is `getenv("HOME")`;
- `Os.executable` is the set of paths for which `access(path, X_OK)` succeeds;
- `Os.chdir` gives the directory reached, or None when `chdir` fails;
- the directory listing is the sequence `readdir` yields, or None when `opendir` fails;
- `Spawn` is what `fork` and `waitpid` report.

Some C code reads a NULL slot or indexes past one of the 64-slot arrays. There the model
stops with a fault status (`NullSlot`, `SlotOutOfRange`,
`MatchBufferOverflow`, or `None` from `Mysh.ExecuteExternal`), in the state just before
the access that would fault. When a pattern's matches run past slot 63, that state has
the matches copied up to slot 63 and the count not yet updated (mysh.c:69-73). So these
cases are visible outcomes rather than preconditions.

`snprintf(path, 1024, "%s/%s", dir, cmd)` is modelled with its truncation to 1023
characters (`Resolver.Candidate`); no precondition is imposed on the name's length.

In two places the code does not do what a shell user would expect; the model follows the code:

- A pattern with no matches is kept, with a diagnostic. It is not dropped (mysh.c:75-78).
- Matches overwrite the pattern's slot and the slots after it. They are not spliced in (mysh.c:68-74). See "## Findings".

## Model

| member | source | states |
|---|---|---|
| Common.Decimal | mysh.c:346 | `%d` of a non-negative number is a non-empty string of decimal digits |
| Common.DecimalRoundTrip | mysh.c:346 | reading the printed digits back gives the number, so distinct codes print differently |
| Tokens.CutAtNewline | mysh.c:152 | the cut line is a prefix of the input and contains no newline; when shorter than the input, it stops at a newline |
| Tokens.CutAtFirstNewline | mysh.c:152 | cutting `a + "\n" + b` gives exactly `a` when `a` has no newline |
| Tokens.Next | mysh.c:154 | `strtok` returns a non-empty token without the delimiter, and resumes at a shorter suffix; it returns NULL exactly when only delimiters are left |
| Tokens.NextReadsWords | mysh.c:185 | one `strtok(NULL, " ")` returns the first of the words of the remaining text and leaves exactly the others; NULL means no word is left |
| Tokens.WordsOfUnwords | myshell.c:53-57 | joining plain words with single spaces and splitting again gives back the same words |
| Tokens.EchoArguments | myshell.c:144-148 | the `printf` loop prints `tokens[1..]` separated by single spaces and ended by a newline, and nothing when there is no argument |
| Tokens.EchoRetokenizes | mysh.c:316-320 | splitting the echoed line at its newline gives back the arguments `tokens[1..]` |
| Glob.MatchingExact | mysh.c:61-65 | a name is among the collected matches exactly when it is in the listing and `fnmatch` accepts it |
| Glob.Matches | mysh.c:62 | `fnmatch(pattern, name, 0) == 0`; a pattern without `*` only matches names no longer than itself |
| Glob.Matching | mysh.c:58-65 | the `readdir` filter keeps the matching entries in listing order, never more than the listing has |
| Glob.LiteralMatchesItself | mysh.c:62 | a pattern with no `*`, `?` or backslash matches exactly itself |
| Glob.StarMatchesAll | mysh.c:62 | `*` matches every name, including `.`, `..` and hidden names, since FNM_PERIOD is not set |
| Glob.StarKeepsListing | mysh.c:61-65 | the matches of `*` are the whole listing, in listing order |
| Glob.StarSuffix | mysh.c:62 | `*` followed by literal text matches exactly the names ending with that text |
| Resolver.Candidate | mysh.c:214-215 | the candidate path is at most 1023 characters and a prefix of `dir/cmd`; it equals `dir/cmd` when that fits the buffer |
| Resolver.Resolve | mysh.c:205-222 | a resolved path is always one that `access(X_OK)` accepts |
| Resolver.FindExecutable | myshell.c:154-171 | the loop over the three search directories returns exactly what `Resolve` describes; the same rule holds in both shells |
| Resolver.DirectPath | mysh.c:206-211 | a name containing `/` resolves to itself exactly when it is executable, and otherwise to NULL |
| Resolver.SearchOrder | mysh.c:213-221 | a slash-free name resolves to the first executable candidate of `/usr/local/bin`, `/usr/bin` and `/bin`, in that order; it resolves to NULL exactly when none is executable |
| Resolver.ResolvedPathEndsWithName | mysh.c:213-218 | when every `dir/cmd` fits the buffer, a resolved bare name is `dir/cmd` for one of the search directories |
| Process.StatusReport | mysh.c:340-352 | nothing is reported when not interactive or for exit code 0; otherwise one line on stderr |
| Common.ExitStatusByte | mysh.c:259 | `WEXITSTATUS` is the code of a normal exit, and 0 exactly for a signal death or exit code 0 |
| Process.ReportDeterminesStatus | myshell.c:215-227 | two statuses that produce the same report are the same status: the code or signal number can be read back |
| Process.RunExternal | myshell.c:184-212 | an unresolved name gives 127 and "command not found" with no fork; a resolved name whose `fork` fails gives 1 and `perror("fork")` with no child; a child runs exactly when the name resolves and `fork` succeeds, and then the result is the child's `WEXITSTATUS` and the output is exactly `handle_exit_status`'s report, if it writes one |
| Process.NotFoundDependsOnNameOnly | myshell.c:185-189 | the not-found result depends only on `tokens[0]`, not on the arguments or the spawn outcome |
| Process.SignalReturnsZero | mysh.c:252-259 | a child killed by a signal makes the function return 0, while the signal is still reported |
| Builtins.Cd | mysh.c:263-284 | `cd` succeeds (0, no output) exactly when one token with HOME set, or two tokens, reach a directory through `chdir`; otherwise it returns 1 with one message and the directory unchanged; an unset HOME and a wrong count give their fixed messages, and a failing `chdir` gives `perror("cd")` |
| Builtins.ChangeTo | mysh.c:270-277 | `chdir` to the target: 0 with no output and the new directory exactly when `chdir` succeeds, otherwise 1, `perror("cd")` and the directory unchanged |
| Builtins.Pwd | mysh.c:286-295 | `pwd` prints the directory and a newline when it fits the 1024-byte buffer, and otherwise gives `perror("pwd")` and 1 |
| Builtins.Which | mysh.c:297-312 | `which` returns 0 exactly when it has one argument and that argument resolves, and then prints the resolved path; any other argument count gives the arity message |
| Builtins.Exit | mysh.c:314-327 | `exit` echoes the arguments (only when there are any), then prints the farewell, and terminates with status 0 |
| Builtins.ExecuteBuiltin | mysh.c:331-337 | -1 comes back exactly for a name that is not a builtin, with no effect; only `exit` terminates; only a successful `cd` changes the directory; builtins return 0 or 1 |
| Builtins.ArityCheckedFirst | mysh.c:279-301 | `cd` with three or more tokens, and `which` without exactly one argument, return 1 whatever HOME, `chdir` and the executable set are |
| Builtins.WhichAgreesWithExternal | mysh.c:303-311 | `which NAME` succeeds exactly when running NAME gets past "command not found", and it prints the path that would be run |
| Builtins.PwdReadsBack | mysh.c:289-291 | the line `pwd` prints, cut at its newline, is the working directory |
| Builtins.ExitEchoesArguments | mysh.c:316-323 | the first line `exit` prints splits back into `tokens[1..]`, and the farewell follows it |
| Builtins.Shell.RunBuiltin | mysh.c:331-337 | running a builtin on the shell returns what `ExecuteBuiltin` returns, and leaves the working directory it describes |
| MyshParse.ParseLine | mysh.c:144-200 | every parsed stage has at most 63 plain tokens, none of them `<`, `>` or `|`; it is a builtin exactly when its first token is a builtin name, and this holds along the chain of stages; a NULL result comes with exactly one "Missing input/output file" message; at most one diagnostic is written |
| MyshParse.Classify | mysh.c:189-197 | only `is_builtin` changes, and it is set exactly when there is a first token and it is `cd`, `pwd`, `which` or `exit` |
| MyshParse.Collect | mysh.c:154-186 | the token loop from any point keeps the same guarantees as `ParseLine` |
| MyshParse.RestOfLine | mysh.c:176-179 | the text after `|` gives a well-formed next stage or none, with at most one diagnostic |
| MyshParse.CollectRedirect | mysh.c:156-173 | one-step unfolding of `Collect` (a proof step for `ParseRedirect`): `<` or `>` followed by a word records that word as the input or output file, stores no token, and continues after the target |
| MyshParse.CollectMissingTarget | mysh.c:157-172 | one-step unfolding of `Collect` (a proof step for `ParseMissingTarget`): `<` or `>` with no word after it makes the parse NULL, with the matching message |
| MyshParse.CollectWord | mysh.c:181-184 | one-step unfolding of `Collect` (a proof step for `CollectPlain`): any other word is appended to the tokens and the loop continues after it |
| MyshParse.CollectPipe | mysh.c:174-180 | one-step unfolding of `Collect` (a proof step for `ParsePipe`): `|` sets `has_pipe`, ends the stage, and makes `next` the parse of the rest of the line |
| MyshParse.CollectStop | mysh.c:155 | one-step unfolding of `Collect` (a proof step for `CollectPlain`): the loop ends when `strtok` runs out or 63 tokens are stored, and then only the builtin check follows |
| MyshParse.ParseIgnoresAfterNewline | mysh.c:152 | the parse depends only on the text before the first newline |
| MyshParse.CollectPlain | mysh.c:154-186 | on text with no operator words, the loop appends the text's words in order until 63 are stored |
| MyshParse.ParsePlainLine | mysh.c:152-186 | for a line with no `<`, `>` or `|` words, the tokens are its space-split, empty-skipped words before the first newline, in order, cut to 63, with no target, no pipe and no diagnostic |
| MyshParse.ParseRedirect | mysh.c:156-173 | `<` or `>` and a word between plain words set that word as the target and add nothing to the tokens: the other words are the tokens, in order |
| MyshParse.ParseRedirectRepeated | mysh.c:159-168 | a repeated `<` or `>` overwrites the earlier target: the line parses as if only the later pair were there |
| MyshParse.ParseMissingTarget | mysh.c:156-173 | an operator as the last word makes the parse NULL after its message |
| MyshParse.ParsePipe | mysh.c:174-180 | after `|` no further token goes to the first stage; `next` is the parse of the rest of the line, or none when nothing follows; only the next stage's diagnostic is written |
| MyshParse.ParseBothTargets | mysh.c:155-172 | `< in > out` after plain words sets both targets, each from its own operator, and stores neither operator nor target as a token |
| MyshParse.CollectTargetsThenPipe | mysh.c:155-180 | the token loop reading `< in > out | r` sets both targets, then the `|` ends the stage with the rest of the line parsed as the next one |
| MyshParse.ParseTargetsThenPipe | mysh.c:144-180 | targets set before `|` stay with the first stage, which keeps only the words before them, gets the pipe flag and the parse of what follows as its next stage |
| MyshParse.Command.constructor | mysh.c:145-150 | a new command is all zero: 64 NULL slots, count 0, no flags, no targets, no next |
| MyshParse.Command.AddToken | mysh.c:182-183 | the token goes into the first NULL slot and the count grows by one; nothing else changes |
| MyshParse.Command.SetPipe | mysh.c:175 | only `has_pipe` changes |
| MyshParse.Command.Attach | mysh.c:178 | `next` becomes the sub-command, and the chain then holds the sub-command's stage |
| MyshParse.Command.SetInputFile | mysh.c:159 | only `input_file` changes, to the given word |
| MyshParse.Command.SetOutputFile | mysh.c:168 | only `output_file` changes, to the given word |
| MyshParse.IsBuiltinToken | mysh.c:190-196 | the loop over the four names finds a match exactly for `cd`, `pwd`, `which` and `exit`, compared exactly |
| MyshParse.ParseCommand | mysh.c:144-200 | the command filled in place, together with the chain of commands after it, holds exactly the stage `ParseLine` describes; it is NULL exactly when `ParseLine` is; the same diagnostics are written |
| MyshParse.MarkBuiltin | mysh.c:189-197 | `is_builtin` is set exactly when there is a first token and it is a builtin name |
| MyshParse.LinkNextStage | mysh.c:174-180 | the `|` branch sets the pipe flag and links the command built from the rest of the line, or nothing when no text follows |
| MyshWildcards.Overwrite | mysh.c:70-72 | writing k matches from slot i sets slots i..i+k-1 to the matches, in order, and leaves every other slot unchanged |
| MyshWildcards.ExpandFrom | mysh.c:49-80 | the loop keeps the 64 slots, never lowers the count, never changes a slot before the current index, and only adds to what was written to stderr |
| MyshWildcards.Expand | mysh.c:48 | `expand_wildcards` from slot 0 keeps the 64 slots and never lowers the count; it reports an `opendir` failure only without a listing, and without a listing no slot and no count changes |
| MyshWildcards.ExpandPass | mysh.c:50-78 | one-step unfolding of `ExpandFrom` (a proof step for `ExpandNoMatch` and `ExpandSkipsPlain`): a token without `*`, or a pattern with no match, leaves the slots and count as they are and moves on; the pattern gets its "No matches" line |
| MyshWildcards.ExpandMatches | mysh.c:68-74 | one-step unfolding of `ExpandFrom` (a proof step for `ExpandLastMatches`): a pattern with k > 0 matches that fit is overwritten from its own slot by the matches, in listing order, and the count grows by k - 1 |
| MyshWildcards.ExpandStops | mysh.c:49-63 | one-step unfolding of `ExpandFrom` for its early exits: the loop stops at a NULL slot, at index 64, at a failed `opendir` (after its `perror`) and at a 65th match with the slots unchanged; when the matches run past slot 63, it stops with them copied up to slot 63 and the count not yet updated |
| MyshWildcards.CollectMatches | mysh.c:58-65 | the `readdir` loop collects exactly the matching entries, in listing order, and reports overflow exactly when there are more than 64 |
| MyshWildcards.ExpandWildcards | mysh.c:48-81 | the in-place loop, whose bound grows with the count, leaves the slots, count, status and diagnostics `ExpandFrom` describes; every other field stays |
| MyshWildcards.ExpandAt | mysh.c:50-79 | one pass of the loop body either continues the expansion at i + 1 or ends it with the status `ExpandFrom` gives |
| MyshWildcards.ExpandPattern | mysh.c:56-78 | the pattern in slot i, matched against the listing, is handled as `ExpandFrom` describes for that slot |
| MyshWildcards.PlaceMatches | mysh.c:68-74 | the copy of k > 0 matches leaves the slots and count `ExpandFrom` gives: all k written from slot i and the count grown by k - 1, or, when they run past slot 63, the slots up to 63 written and the count unchanged, with `SlotOutOfRange(64)` |
| MyshWildcards.WriteMatches | mysh.c:70-72 | the copy loop leaves exactly `Overwrite` of the old slots |
| MyshWildcardFacts.ExpandSkipsPlain | mysh.c:49-50 | the loop steps over tokens without `*` and changes nothing |
| MyshWildcardFacts.ExpandNoPatterns | mysh.c:49-50 | with no `*` token, expansion completes with slots and count unchanged and writes nothing |
| MyshWildcardFacts.ExpandOpendirFails | mysh.c:51-55 | when `opendir` fails at the first `*` token, expansion stops with `perror("opendir")` and the command as it was |
| MyshWildcardFacts.ExpandNoMatch | mysh.c:75-78 | a pattern with zero matches leaves the token list and count unchanged and prints only "No matches for wildcard" |
| MyshWildcards.ExpandCompletedFilled | mysh.c:49-73 | a completed expansion of filled slots leaves at most 64 tokens and no NULL slot below the count |
| MyshWildcardFacts.SplicedPattern | mysh.c:68-74 | splicing puts a pattern's matches, or the kept pattern, in its place, with the arguments on both sides where they were |
| MyshWildcardFacts.ExpandSingleMatch | mysh.c:68-74 | on the slots, one pattern after plain tokens, with plain matches: the matches are written from its slot and the loop completes |
| MyshWildcardFacts.ExpandLastMatches | mysh.c:68-74 | the matches of a last pattern take its slot and the slots after it, and the count grows accordingly |
| MyshWildcardFacts.ExpandLastPattern | mysh.c:68-78 | when the only `*` token is the last, the code as written gives what splicing gives; with no match the pattern stays and gets its message |
| MyshWildcardFacts.ExampleExpansion | mysh.c:68-74 | `ls *.txt notes` over `a.txt b.txt c.md` ends at the NULL slot 3, with `ls a.txt b.txt` and count 4 |
| MyshWildcardFacts.ExampleSpliced | mysh.c:68-74 | splicing the same line gives `ls a.txt b.txt notes` |
| MyshWildcardFacts.OverwriteLosesArgument | mysh.c:68-74 | as written, the expansion of `ls *.txt notes` loses `notes` and faults, while splicing keeps it |
| MyshWildcards.ExpandWithoutListing | mysh.c:51-55 | without a directory listing no slot and no count changes |
| MyshWildcardFacts.ExpandKeepsPlainFirst | mysh.c:49-50 | a first token without `*` is still the first token after expansion |
| MyshWildcards.ExpandOpendirMeansNoListing | mysh.c:51-55 | expansion reports an `opendir` failure only when there is no listing |
| Mysh.ExecuteExternal | mysh.c:225-260 | 127 and "command not found" for a name that does not resolve; the NULL write falls outside the array (None) exactly when the name resolves with 64 tokens; otherwise a failed `fork` gives 1 and `perror("fork")`, and a forked run returns the child's `WEXITSTATUS` with `handle_exit_status`'s report as its only output |
| Mysh.ExpandStage | mysh.c:409 | the status and the stderr lines are those of `expand_wildcards` on the parsed tokens (`Expand`), and a completed expansion runs exactly the tokens in its first `token_count` slots; expansion goes on to execution when it completes and when `opendir` fails; the tokens never shrink and stay within 64; without a listing, and with no `*` token, they are as parsed; a plain first token stays first |
| Mysh.ExpandStageLastPattern | mysh.c:48-80 | when the only pattern of the first stage is its last token, the stage runs with that pattern spliced over the listing, after a "No matches" line when it matches nothing |
| Mysh.DecideLastPattern | mysh.c:400-418 | on such a line `main` writes the parse's diagnostic and the "No matches" line, if any, and takes its route with the spliced tokens |
| Mysh.LastPatternExample | mysh.c:400-418 | `ls *.txt` over the listing `a.txt` runs the external command `ls a.txt` and writes nothing first |
| Mysh.Prepare | mysh.c:400-409 | exactly a blank line, a NULL parse and an empty command are skipped; a skipped line writes only the parse's diagnostic, any other writes exactly the parse's diagnostic followed by the expansion's lines (`perror("opendir")`, "No matches for wildcard"); a non-skipped line stops exactly when `ExpandStage` faults, with its status; a line ready to run keeps its parsed stage and the tokens `ExpandStage` gives, which are no fewer, at most 64, with a plain first token kept |
| Mysh.Choose | mysh.c:412-418 | a builtin runs exactly when `is_builtin` is set; `handle_pipeline` gets both stages exactly for a non-builtin with `has_pipe` and a next stage; otherwise the command runs as an external one; each route carries the expanded tokens |
| Mysh.Decide | mysh.c:400-418 | `main` skips exactly the blank, NULL and empty lines, after writing the parse's diagnostic; it faults exactly when `Prepare` stops; for a line ready to run it runs a builtin exactly when `is_builtin` is set, hands both stages to `handle_pipeline` exactly for a non-builtin with `has_pipe` and a next stage, and otherwise runs an external command, always on the expanded tokens; the route's parts agree with the parsed stage |
| Mysh.RouteFixedBeforeExpansion | mysh.c:409-418 | which route a line takes does not depend on the directory listing, as long as expansion does not fault |
| Mysh.SimpleLine | mysh.c:400-418 | a line of simple words runs its first 63 words: as a builtin when the first is a builtin name, otherwise as an external command; a line without words is skipped |
| Mysh.BuiltinIgnoresPipe | mysh.c:412-415 | a builtin before `|` runs alone, since the builtin check comes first, and the rest of the line's diagnostic is still written |
| Mysh.PipelineWhenSecondStage | mysh.c:414-417 | a non-builtin before `|` goes to `handle_pipeline` exactly when the rest of the line parses to a stage, and otherwise runs alone |
| Mysh.EmptySecondStage | mysh.c:176-178 | as written, `|` followed only by spaces gives `handle_pipeline` a second stage with no tokens |
| Mysh.EmptySecondStageExample | mysh.c:176-178 | `ls |  ` (two spaces) is such a line |
| Mysh.DecideCorrected | mysh.c:412-418 | with the correction, a pipeline always has a non-empty second stage, and an external command always has a token |
| Mysh.CorrectedDiffersOnlyOnEmptyStage | mysh.c:412-418 | the correction writes the same diagnostics, and changes the route only for a pipeline whose second stage is empty, which it runs as the first stage alone |
| Mysh.CorrectedBlanksAfterPipe | mysh.c:414-417 | with the correction, `|` followed by spaces behaves like a trailing `|` |
| Mysh.CdWording | mysh.c:263-284 | mysh.c's `cd` says "cd: HOME not set" and "cd: too many arguments" |
| Mysh.WhichWording | mysh.c:310 | mysh.c's `which` says "which: NAME not found" |
| Mysh.ExitWording | mysh.c:314-327 | mysh.c's `exit` echoes its arguments and prints "Exiting my shell." |
| Mysh.FailedExitWording | mysh.c:343-347 | mysh.c reports a non-zero exit as "Command failed: exit code N" |
| MyShell.Command.constructor | myshell.c:46-47 | a new command has 64 NULL slots, count 0 and is not a builtin |
| MyShell.Command.AddToken | myshell.c:55-56 | the token goes into the first NULL slot and the count grows by one |
| MyShell.ParseCommand | myshell.c:45-71 | the slots hold the words of the line before its first newline, at most 63, and the rest are NULL; `is_builtin` is set exactly when the first is a builtin name |
| MyShell.LineTokens | myshell.c:50-57 | the stored tokens are the line's words before the newline, in order, at most 63, and all of them when fewer than 63 are stored |
| MyShell.ParsesWords | myshell.c:50-58 | at most 63 plain words joined by spaces, with anything after a newline, parse back to exactly those words |
| MyShell.KeepsFirstWords | myshell.c:54 | a line of more than 63 words keeps the first 63, in order |
| MyShell.OperatorsAreWords | myshell.c:53-58 | `<`, `>` and `|` are ordinary tokens: `ls > out | wc` has five tokens |
| MyShell.Decide | myshell.c:254-264 | `main` skips exactly the blank lines and the lines with no tokens; it runs a builtin exactly when the first token is a builtin name, and otherwise an external command, with 1 to 63 tokens |
| MyShell.BuiltinRouteKnown | myshell.c:174-181 | a builtin route never reaches `execute_builtin`'s -1 |
| MyShell.CdWording | myshell.c:82-110 | myshell.c's `cd` says "cd: HOME environment variable not set" and "cd: expected one argument" |
| MyShell.WhichWording | myshell.c:137 | myshell.c's `which` says "which: command not found: NAME" |
| MyShell.ExitWording | myshell.c:142-151 | myshell.c's `exit` echoes its arguments and prints "mysh: exiting" |
| MyShell.FailedExitWording | myshell.c:218-222 | myshell.c reports a non-zero exit as "Command failed: code N" |

## Left out

- The read loops of both `main` functions are not modelled: the banners, the prompts, `fgets` into its 1024-byte buffer, `isatty` and mysh.c's script file. The model starts from the line that was read, and `interactive` is a parameter.
- `fork`, `execv`, `waitpid`, `pipe` and `dup2` are not modelled. This covers `handle_pipeline` (mysh.c:107-139), `handle_redirection` (mysh.c:84-104) and the child's side of `execute_external_command`. The model ends at the route `main` chooses, and `Spawn` is the parent's view of the child.
- Inside `handle_pipeline`, the first stage also writes `tokens[token_count]`. This can fall outside the array after expansion, as in mysh.c:232; the model does not cover it there.
- The bit layout behind `WIFEXITED`, `WEXITSTATUS` and `WTERMSIG` is not modelled. A decoded `WaitStatus` is the input. A signal death gives `WEXITSTATUS` 0.
- The text `perror` adds after its prefix comes from `errno`, which is not modelled. `Perror(prefix)` stands for the whole line.
- `Glob.Matches` does not model bracket expressions `[...]` of `fnmatch`. A pattern with `[` is matched as if `[` were a literal character.
- `opendir`/`readdir`, `access`, `getenv`, `chdir` and `getcwd` are inputs, not modelled calls.
- Builtins.Pwd: `getcwd` failing for reasons other than the buffer size (a removed directory, permissions) is not modelled.
- `strdup`, `malloc`, `calloc`, `free` and `free_command` are not modelled. Running out of memory is not modelled.
- The debug `fprintf` lines of myshell.c's `builtin_cd` (myshell.c:76-79, 85, 89, 99, 108) are not modelled. `MyShell` uses only the builtin's real messages.
- Strings are sequences of characters, not bytes. The C code and `fnmatch` work on bytes in the C locale.
- `exit` ends the process; the model reports this with the `terminated` flag.
- Wherever the C code would read a NULL slot or index past a 64-slot array, the model stops in the state just before the access. What the program would do after that is undefined behaviour and is not modelled.
- One directory listing serves every `*` token of a line, while mysh.c:51 calls `opendir(".")` again for each pattern. So a later `opendir` failing after an earlier one succeeded, or a directory that changes between two patterns of one line, is not modelled.

## Findings

| source | as written | input that shows it | evidently intended | confidence | as-written member | corrected member |
|---|---|---|---|---|---|---|
| mysh.c:68-74 | the k matches of a pattern overwrite the pattern's slot and the k - 1 slots after it, and the count grows by k - 1 | `ls *.txt notes` in a directory holding `a.txt`, `b.txt` and `c.md`: `notes` is overwritten by `b.txt`, the count becomes 4, and the loop then calls `strchr` on the NULL slot 3 | the matches take the pattern's place and later arguments move right | not executed | MyshWildcardFacts.OverwriteLosesArgument | MyshWildcardFacts.SplicedPattern |
| mysh.c:174-180 | after `|`, any non-NULL rest of the line is parsed into `next`, even when it holds no word, and `main` then runs `handle_pipeline` | `ls |  ` (two spaces after the bar): `next` is a stage with no tokens, whose `execute_external_command` reads the NULL `tokens[0]` | a second stage with no tokens is treated as no second stage | not executed | Mysh.EmptySecondStageExample | Mysh.CorrectedDiffersOnlyOnEmptyStage |

`Mysh.DecideCorrected` is the corrected dispatch of the second row, and
`Mysh.CorrectedBlanksAfterPipe` shows that it runs `ls |  ` like `ls | `.
`MyshWildcardFacts.Spliced` is the corrected expansion of the first row, and
`MyshWildcardFacts.ExpandLastPattern` shows that the code agrees with it when the only
pattern is the last token.
