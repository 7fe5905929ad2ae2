/**
 * `find_executable`, which both shells define identically: a name with a
 * slash is taken as a path and accepted only if executable; any other name
 * is tried in three fixed directories, in order. `PATH` is never read.
 * Executability (`access(path, X_OK) == 0`) is the set `exec`.
 */
module Resolver {
  import opened Common

  const SEARCH_PATHS: seq<string> := ["/usr/local/bin", "/usr/bin", "/bin"]

  /** Size of the `path` buffer that `snprintf` writes into. */
  const PATH_BUFFER_SIZE: nat := 1024

  /**
   * `snprintf(path, 1024, "%s/%s", dir, cmd)`: the joined path, cut to the
   * 1023 characters that fit before the terminating NUL.
   */
  function Candidate(dir: string, cmd: string): (p: string)
    ensures |p| < PATH_BUFFER_SIZE
    ensures p <= dir + "/" + cmd
    ensures |dir| + 1 + |cmd| < PATH_BUFFER_SIZE ==> p == dir + "/" + cmd
  {
    var full := dir + "/" + cmd;
    if |full| < PATH_BUFFER_SIZE then full else full[..PATH_BUFFER_SIZE - 1]
  }

  function FirstExecutable(cmd: string, exec: set<string>, i: nat): Option<string>
    requires i <= |SEARCH_PATHS|
    decreases |SEARCH_PATHS| - i
  {
    if i == |SEARCH_PATHS| then None
    else if Candidate(SEARCH_PATHS[i], cmd) in exec then Some(Candidate(SEARCH_PATHS[i], cmd))
    else FirstExecutable(cmd, exec, i + 1)
  }

  /** What `find_executable(cmd)` returns, None standing for NULL. */
  function Resolve(cmd: string, exec: set<string>): (r: Option<string>)
    ensures r.Some? ==> r.value in exec
  {
    if '/' in cmd then (if cmd in exec then Some(cmd) else None)
    else FirstExecutable(cmd, exec, 0)
  }

  /** The loop of `find_executable` over `SEARCH_PATHS`. */
  method FindExecutable(cmd: string, exec: set<string>) returns (r: Option<string>)
    ensures r == Resolve(cmd, exec)
  {
    if '/' in cmd {
      if cmd in exec {
        return Some(cmd);
      }
      return None;
    }
    var i := 0;
    while i < |SEARCH_PATHS|
      invariant 0 <= i <= |SEARCH_PATHS|
      invariant Resolve(cmd, exec) == FirstExecutable(cmd, exec, i)
    {
      var path := Candidate(SEARCH_PATHS[i], cmd);
      if path in exec {
        return Some(path);
      }
      i := i + 1;
    }
    return None;
  }

  /** A name with a slash resolves to itself exactly when it is executable, and never elsewhere. */
  lemma {:induction false} DirectPath(cmd: string, exec: set<string>)
    requires '/' in cmd
    ensures Resolve(cmd, exec) == Some(cmd) <==> cmd in exec
    ensures Resolve(cmd, exec).None? <==> cmd !in exec
  {
  }

  lemma {:induction false} FirstExecutableIsFirst(cmd: string, exec: set<string>, i: nat, p: string)
    requires i <= |SEARCH_PATHS|
    ensures FirstExecutable(cmd, exec, i) == Some(p) <==>
              exists k :: i <= k < |SEARCH_PATHS| && p == Candidate(SEARCH_PATHS[k], cmd) && p in exec &&
                forall j :: i <= j < k ==> Candidate(SEARCH_PATHS[j], cmd) !in exec
    decreases |SEARCH_PATHS| - i
  {
    if i < |SEARCH_PATHS| {
      FirstExecutableIsFirst(cmd, exec, i + 1, p);
      if Candidate(SEARCH_PATHS[i], cmd) !in exec {
        if FirstExecutable(cmd, exec, i) == Some(p) {
          var k :| i + 1 <= k < |SEARCH_PATHS| && p == Candidate(SEARCH_PATHS[k], cmd) && p in exec &&
                forall j :: i + 1 <= j < k ==> Candidate(SEARCH_PATHS[j], cmd) !in exec;
          assert forall j :: i <= j < k ==> Candidate(SEARCH_PATHS[j], cmd) !in exec;
        }
      }
    }
  }

  /**
   * A slash-free name resolves to `p` exactly when `p` is the candidate of
   * some search directory that is executable while the candidates of all
   * earlier directories are not; it resolves to nothing exactly when none is.
   */
  lemma {:induction false} SearchOrder(cmd: string, exec: set<string>, p: string)
    requires '/' !in cmd
    ensures Resolve(cmd, exec) == Some(p) <==>
              exists k :: 0 <= k < |SEARCH_PATHS| && p == Candidate(SEARCH_PATHS[k], cmd) && p in exec &&
                forall j :: 0 <= j < k ==> Candidate(SEARCH_PATHS[j], cmd) !in exec
    ensures Resolve(cmd, exec).None? <==>
              forall k :: 0 <= k < |SEARCH_PATHS| ==> Candidate(SEARCH_PATHS[k], cmd) !in exec
  {
    FirstExecutableIsFirst(cmd, exec, 0, p);
    if Resolve(cmd, exec).Some? {
      FirstExecutableIsFirst(cmd, exec, 0, Resolve(cmd, exec).value);
    }
  }

  /** When the joined path fits the buffer, a resolved bare name is `dir/cmd` for a search directory. */
  lemma {:induction false} ResolvedPathEndsWithName(cmd: string, exec: set<string>)
    requires '/' !in cmd && |cmd| + 15 < PATH_BUFFER_SIZE
    requires Resolve(cmd, exec).Some?
    ensures exists k :: 0 <= k < |SEARCH_PATHS| && Resolve(cmd, exec).value == SEARCH_PATHS[k] + "/" + cmd
  {
    SearchOrder(cmd, exec, Resolve(cmd, exec).value);
  }
}
