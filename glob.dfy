/**
 * `fnmatch(pattern, name, 0)` for the part of the pattern language of
 * section 2.13 "Pattern Matching Notation" of POSIX.1-2017 (XCU) that the
 * model covers: `*` matches any string, `?` any one character, a backslash
 * makes the next character literal, and every other character matches
 * itself. With flags 0 neither FNM_PATHNAME nor FNM_PERIOD is set, so `/`
 * and a leading `.` are ordinary characters.
 */
module Glob {

  predicate Matches(p: string, s: string)
    ensures Matches(p, s) && '*' !in p ==> |s| <= |p|
    decreases |p| + |s|
  {
    if |p| == 0 then |s| == 0
    else if p[0] == '*' then Matches(p[1..], s) || (|s| > 0 && Matches(p, s[1..]))
    else if p[0] == '?' then |s| > 0 && Matches(p[1..], s[1..])
    else if p[0] == '\\' then |p| > 1 && |s| > 0 && s[0] == p[1] && Matches(p[2..], s[1..])
    else |s| > 0 && s[0] == p[0] && Matches(p[1..], s[1..])
  }

  /** A pattern with none of the characters `*`, `?` and backslash. */
  predicate Literal(p: string)
  {
    '*' !in p && '?' !in p && '\\' !in p
  }

  /** The entries of a directory listing that match, in listing order. */
  function Matching(entries: seq<string>, p: string): (ms: seq<string>)
    ensures |ms| <= |entries|
  {
    if |entries| == 0 then []
    else (if Matches(p, entries[0]) then [entries[0]] else []) + Matching(entries[1..], p)
  }

  /** The matches are exactly the entries that match: nothing else is kept and nothing that matches is lost. */
  lemma {:induction false} MatchingExact(entries: seq<string>, p: string, name: string)
    ensures name in Matching(entries, p) <==> name in entries && Matches(p, name)
  {
    if |entries| > 0 {
      MatchingExact(entries[1..], p, name);
      assert entries == [entries[0]] + entries[1..];
    }
  }

  lemma {:induction false} MatchingAppend(a: seq<string>, b: seq<string>, p: string)
    ensures Matching(a + b, p) == Matching(a, p) + Matching(b, p)
  {
    if |a| == 0 {
      assert a + b == b;
    } else {
      assert (a + b)[1..] == a[1..] + b;
      MatchingAppend(a[1..], b, p);
    }
  }

  /** A pattern without special characters matches exactly itself. */
  lemma {:induction false} LiteralMatchesItself(p: string, s: string)
    requires Literal(p)
    ensures Matches(p, s) <==> p == s
  {
    if |p| > 0 && |s| > 0 {
      LiteralMatchesItself(p[1..], s[1..]);
      if p[1..] == s[1..] && p[0] == s[0] {
        assert p == [p[0]] + p[1..] && s == [s[0]] + s[1..];
      }
    }
  }

  /** `*` alone matches every name, `.` and `..` included. */
  lemma {:induction false} StarMatchesAll(s: string)
    ensures Matches("*", s)
  {
    if |s| > 0 {
      StarMatchesAll(s[1..]);
    }
  }

  /** Expanding `*` keeps the whole listing, in its order. */
  lemma {:induction false} StarKeepsListing(entries: seq<string>)
    ensures Matching(entries, "*") == entries
  {
    if |entries| > 0 {
      StarMatchesAll(entries[0]);
      StarKeepsListing(entries[1..]);
    }
  }

  /** `*` followed by literal text matches exactly the names that end with that text. */
  lemma {:induction false} StarSuffix(lit: string, s: string)
    requires Literal(lit)
    ensures Matches(['*'] + lit, s) <==> |lit| <= |s| && s[|s| - |lit|..] == lit
  {
    var p := ['*'] + lit;
    assert p[1..] == lit;
    LiteralMatchesItself(lit, s);
    if |s| > 0 {
      StarSuffix(lit, s[1..]);
      assert |lit| <= |s| - 1 ==> s[1..][|s| - 1 - |lit|..] == s[|s| - |lit|..];
    }
  }
}
