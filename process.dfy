/**
 * The parent's side of running an external command, shared by both shells:
 * `handle_exit_status` and the decisions of `execute_external_command`.
 * `fork`, `execv` and `waitpid` are not modelled; what they report back is
 * the input `Spawn`. The two shells differ only in the wording of the
 * failed-exit line, given as `failed`.
 */
module Process {
  import opened Common
  import opened Resolver

  /** What `fork` and `waitpid` report: the fork failed, or the child ended with `status`. */
  datatype Spawn = ForkFails | Waited(status: WaitStatus)

  /** The value `execute_external_command` returns, whether it forked, and what it wrote. */
  datatype ExternalOutcome = ExternalOutcome(status: int, forked: bool, output: seq<Output>)

  const SIGNAL_PREFIX: string := "Terminated by signal: "

  /**
   * `handle_exit_status(status, interactive)`: nothing when not interactive
   * or for a zero exit code, otherwise one line on stderr.
   */
  function StatusReport(s: WaitStatus, interactive: bool, failed: string): (r: Option<Output>)
    ensures r.None? <==> !interactive || s == Exited(0)
    ensures r.Some? ==> r.value.Stderr?
  {
    if !interactive then None
    else match s
      case Exited(code) => if code != 0 then Some(Stderr(failed + Decimal(code) + "\n")) else None
      case Signaled(signal) => Some(Stderr(SIGNAL_PREFIX + Decimal(signal) + "\n"))
  }

  lemma {:induction false} StripAffixes(p: string, a: string, b: string)
    requires p + a + "\n" == p + b + "\n"
    ensures a == b
  {
    assert a == (p + a + "\n")[|p|..|p| + |a|];
    assert b == (p + b + "\n")[|p|..|p| + |b|];
  }

  /** A report starts with the first character of its wording. */
  lemma {:induction false} ReportFirstChar(s: WaitStatus, failed: string)
    requires |failed| > 0
    ensures StatusReport(s, true, failed).Some? ==>
              |StatusReport(s, true, failed).value.text| > 0 &&
              StatusReport(s, true, failed).value.text[0] == (if s.Exited? then failed[0] else SIGNAL_PREFIX[0])
  {
  }

  /**
   * The line written determines the status it reports: two statuses with
   * the same report are equal, provided the failed-exit wording cannot be
   * mistaken for the signal one.
   */
  lemma {:induction false} ReportDeterminesStatus(a: WaitStatus, b: WaitStatus, failed: string)
    requires |failed| > 0 && failed[0] != SIGNAL_PREFIX[0]
    requires StatusReport(a, true, failed).Some? && StatusReport(a, true, failed) == StatusReport(b, true, failed)
    ensures a == b
  {
    ReportFirstChar(a, failed);
    ReportFirstChar(b, failed);
    match a {
      case Exited(x) =>
        match b {
          case Exited(y) =>
            StripAffixes(failed, Decimal(x), Decimal(y));
            DecimalInjective(x, y);
          case Signaled(_) =>
        }
      case Signaled(x) =>
        match b {
          case Exited(_) =>
          case Signaled(y) =>
            StripAffixes(SIGNAL_PREFIX, Decimal(x), Decimal(y));
            DecimalInjective(x, y);
        }
    }
  }

  /**
   * `execute_external_command(cmd, interactive)` on the tokens of `cmd`.
   * A name that does not resolve gives 127 and "command not found" before
   * any fork; a failed fork gives 1; otherwise the result is the child's
   * `WEXITSTATUS`, with its report when interactive.
   */
  function RunExternal(tokens: seq<string>, exec: set<string>, interactive: bool, spawn: Spawn, failed: string)
    : (r: ExternalOutcome)
    requires |tokens| > 0
    ensures Resolve(tokens[0], exec).None? ==>
              r == ExternalOutcome(127, false, [Stderr(tokens[0] + ": command not found\n")])
    ensures r.forked <==> Resolve(tokens[0], exec).Some? && spawn.Waited?
    ensures r.forked ==> 0 <= r.status && r.status == ExitStatusByte(spawn.status)
    ensures r.forked ==>
              r.output == (if StatusReport(spawn.status, interactive, failed).Some?
                           then [StatusReport(spawn.status, interactive, failed).value] else [])
    ensures Resolve(tokens[0], exec).Some? && spawn.ForkFails? ==> r == ExternalOutcome(1, false, [Perror("fork")])
  {
    match Resolve(tokens[0], exec)
    case None => ExternalOutcome(127, false, [Stderr(tokens[0] + ": command not found\n")])
    case Some(_) =>
      match spawn
      case ForkFails => ExternalOutcome(1, false, [Perror("fork")])
      case Waited(s) =>
        var report := StatusReport(s, interactive, failed);
        ExternalOutcome(ExitStatusByte(s), true, if report.Some? then [report.value] else [])
  }

  /**
   * The first token alone decides whether the command is found: commands
   * with the same first token and the same executable set agree on it, and
   * an unresolved one writes the same line whatever its arguments.
   */
  lemma {:induction false} NotFoundDependsOnNameOnly(a: seq<string>, b: seq<string>, exec: set<string>,
                                  interactive: bool, s1: Spawn, s2: Spawn, failed: string)
    requires |a| > 0 && |b| > 0 && a[0] == b[0]
    requires Resolve(a[0], exec).None?
    ensures RunExternal(a, exec, interactive, s1, failed) == RunExternal(b, exec, interactive, s2, failed)
  {
  }

  /**
   * A child killed by a signal makes `execute_external_command` return 0,
   * since `WEXITSTATUS` of a signal status is 0, while an interactive shell
   * still reports the signal.
   */
  lemma {:induction false} SignalReturnsZero(tokens: seq<string>, exec: set<string>, signal: nat, failed: string)
    requires |tokens| > 0 && Resolve(tokens[0], exec).Some?
    ensures var r := RunExternal(tokens, exec, true, Waited(Signaled(signal)), failed);
            r.status == 0 && r.output == [Stderr(SIGNAL_PREFIX + Decimal(signal) + "\n")]
  {
  }
}
