/**
 * Values shared by both shells: optional values, the output events a
 * builtin or the dispatcher produces, a decoded child status, the
 * operating-system facts the shells consult, and C's "%d" formatting.
 */
module Common {

  datatype Option<+T> = None | Some(value: T)

  /** Size of the fixed `tokens` array of a command (MAX_TOKENS). */
  const MAX_TOKENS: int := 64

  /**
   * One write to a standard stream. `Perror(p)` stands for `perror(p)`:
   * the prefix, a colon and the text of the current `errno`, which is not modelled.
   */
  datatype Output = Stdout(text: string) | Stderr(text: string) | Perror(prefix: string)

  /** A child's termination as `waitpid` reports it, already decoded. */
  datatype WaitStatus = Exited(code: nat) | Signaled(signal: nat)

  /**
   * What the operating system answers: `getenv("HOME")`, the set of paths
   * for which `access(path, X_OK)` succeeds, and `chdir`, given as the new
   * working directory reached from `cwd` with argument `target`, or None when
   * `chdir` fails.
   */
  datatype Os = Os(
    home: Option<string>,
    executable: set<string>,
    chdir: (string, string) -> Option<string>)

  /** The four builtin names, compared with `strcmp` (exact, case-sensitive). */
  predicate IsBuiltinName(w: string)
  {
    w == "cd" || w == "pwd" || w == "which" || w == "exit"
  }

  /**
   * `WEXITSTATUS(status)`: the exit code of a normal exit; for a death by
   * signal the status word has a zero second byte, so the macro yields 0.
   */
  function ExitStatusByte(s: WaitStatus): (r: nat)
    ensures s.Exited? ==> r == s.code
    ensures r == 0 <==> s.Signaled? || s == Exited(0)
  {
    match s
    case Exited(code) => code
    case Signaled(_) => 0
  }

  function DigitChar(d: nat): (c: char)
    requires d < 10
    ensures '0' <= c <= '9'
  {
    "0123456789"[d]
  }

  /** Decimal text of `n`, as `printf("%d", n)` writes a non-negative int. */
  function Decimal(n: nat): (s: string)
    ensures |s| > 0
    ensures forall i | 0 <= i < |s| :: '0' <= s[i] <= '9'
  {
    if n < 10 then [DigitChar(n)] else Decimal(n / 10) + [DigitChar(n % 10)]
  }

  /** Reads back a string of decimal digits. */
  function DecimalValue(s: string): nat
    requires forall i | 0 <= i < |s| :: '0' <= s[i] <= '9'
  {
    if |s| == 0 then 0
    else 10 * DecimalValue(s[..|s| - 1]) + ((s[|s| - 1] as int) - ('0' as int))
  }

  /** The decimal text of a number determines the number. */
  lemma {:induction false} DecimalRoundTrip(n: nat)
    ensures DecimalValue(Decimal(n)) == n
  {
    var s := Decimal(n);
    if n < 10 {
      assert s[..|s| - 1] == [];
    } else {
      DecimalRoundTrip(n / 10);
      assert s[..|s| - 1] == Decimal(n / 10);
      assert (s[|s| - 1] as int) - ('0' as int) == n % 10;
    }
  }

  lemma {:induction false} DecimalInjective(a: nat, b: nat)
    requires Decimal(a) == Decimal(b)
    ensures a == b
  {
    DecimalRoundTrip(a);
    DecimalRoundTrip(b);
  }
}
