/**
 * The tokenizer both shells share: the line is cut at its first newline and
 * then read with `strtok`, whose saved position is modelled as the suffix of
 * the line not yet read. `Words` is the reference meaning: split at every
 * single space and drop the empty fields (tabs are ordinary characters).
 */
module Tokens {
  import opened Common

  /** `input[strcspn(input, "\n")] = 0`: the text before the first newline. */
  function CutAtNewline(s: string): (r: string)
    ensures '\n' !in r
    ensures r <= s
    ensures |r| < |s| ==> s[|r|] == '\n'
  {
    if |s| == 0 || s[0] == '\n' then "" else [s[0]] + CutAtNewline(s[1..])
  }

  lemma {:induction false} CutWithoutNewline(s: string)
    requires '\n' !in s
    ensures CutAtNewline(s) == s
  {
    if |s| > 0 {
      CutWithoutNewline(s[1..]);
    }
  }

  /** Cutting `a + "\n" + b` keeps exactly `a` when `a` has no newline. */
  lemma {:induction false} CutAtFirstNewline(a: string, b: string)
    requires '\n' !in a
    ensures CutAtNewline(a + "\n" + b) == a
  {
    if |a| > 0 {
      assert (a + "\n" + b)[1..] == a[1..] + "\n" + b;
      CutAtFirstNewline(a[1..], b);
    }
  }

  /** A token `strtok` returned and the suffix it will resume from. */
  datatype Scan = Scan(token: string, rest: string)

  /**
   * The token starting at the first character of `s`, ended by `d` or by
   * the end of the text; the delimiter that ends it is consumed.
   */
  function TakeToken(s: string, d: char): (r: Scan)
    ensures d !in r.token
    ensures |r.token| <= |s| && |r.rest| <= |s| - |r.token|
    ensures |s| > 0 && s[0] != d ==> |r.token| > 0
    ensures forall c :: c !in s ==> c !in r.token && c !in r.rest
  {
    if |s| == 0 then Scan("", "")
    else if s[0] == d then Scan("", s[1..])
    else
      var sc := TakeToken(s[1..], d);
      Scan([s[0]] + sc.token, sc.rest)
  }

  /**
   * `strtok(_, d)` with a one-character delimiter set, resuming at `s`:
   * skip delimiters, give None at the end of the text, otherwise return the
   * next non-empty token and the suffix after the delimiter that ends it.
   */
  function Next(s: string, d: char): (r: Option<Scan>)
    ensures r.Some? ==> |r.value.token| > 0 && d !in r.value.token
    ensures r.Some? ==> |r.value.token| <= |s| && |r.value.rest| < |s|
    ensures r.Some? ==> forall c :: c !in s ==> c !in r.value.token && c !in r.value.rest
    ensures r.None? <==> forall i | 0 <= i < |s| :: s[i] == d
  {
    if |s| == 0 then None
    else if s[0] == d then
      var r := Next(s[1..], d);
      assert forall i | 1 <= i < |s| :: s[i] == s[1..][i - 1];
      r
    else Some(TakeToken(s, d))
  }

  /** `s` split at every `d`, empty fields included. */
  function Split(s: string, d: char): (r: seq<string>)
    ensures |r| > 0
  {
    if |s| == 0 then [""]
    else
      var t := Split(s[1..], d);
      if s[0] == d then [""] + t else [[s[0]] + t[0]] + t[1..]
  }

  function NonEmpty(fs: seq<string>): seq<string>
  {
    if |fs| == 0 then [] else (if fs[0] == "" then [] else [fs[0]]) + NonEmpty(fs[1..])
  }

  /** The words of a line: split at single spaces, empty fields dropped. */
  function Words(s: string): seq<string>
  {
    NonEmpty(Split(s, ' '))
  }

  /** The first `n` elements, or all of them when there are fewer. */
  function Take<T>(xs: seq<T>, n: nat): (r: seq<T>)
    ensures |r| <= n && r <= xs
    ensures |xs| <= n ==> r == xs
  {
    if |xs| <= n then xs else xs[..n]
  }

  /** The 64 slots of `tokens` holding `ts`, the rest NULL. */
  function Layout(ts: seq<string>): (slots: seq<Option<string>>)
    requires |ts| <= MAX_TOKENS
    ensures |slots| == MAX_TOKENS
    ensures forall j | 0 <= j < MAX_TOKENS :: slots[j] == if j < |ts| then Some(ts[j]) else None
  {
    seq(MAX_TOKENS, j requires 0 <= j < MAX_TOKENS => if j < |ts| then Some(ts[j]) else None)
  }

  /** Storing `t` in the first NULL slot. */
  lemma {:induction false} LayoutPush(ts: seq<string>, t: string)
    requires |ts| < MAX_TOKENS
    ensures Layout(ts)[|ts| := Some(t)] == Layout(ts + [t])
  {
    assert forall j | 0 <= j < MAX_TOKENS :: Layout(ts)[|ts| := Some(t)][j] == Layout(ts + [t])[j];
  }

  /** What a token of a parsed line always is: non-empty, no space, no newline. */
  predicate Plain(w: string)
  {
    |w| > 0 && ' ' !in w && '\n' !in w
  }

  /** Words joined by single spaces. */
  function Unwords(ws: seq<string>): string
  {
    if |ws| == 0 then ""
    else if |ws| == 1 then ws[0]
    else ws[0] + " " + Unwords(ws[1..])
  }

  /** Every word followed by one space. */
  function Spaced(ws: seq<string>): string
  {
    if |ws| == 0 then "" else ws[0] + " " + Spaced(ws[1..])
  }

  lemma {:induction false} NonEmptyAppend(a: seq<string>, b: seq<string>)
    ensures NonEmpty(a + b) == NonEmpty(a) + NonEmpty(b)
  {
    if |a| == 0 {
      assert a + b == b;
    } else {
      assert (a + b)[1..] == a[1..] + b;
      NonEmptyAppend(a[1..], b);
    }
  }

  lemma {:induction false} TakeTokenSplits(s: string, d: char)
    ensures var sc := TakeToken(s, d);
            Split(s, d) == [sc.token] + Split(sc.rest, d) ||
            (Split(s, d) == [sc.token] && sc.rest == "")
  {
    if |s| > 0 && s[0] != d {
      TakeTokenSplits(s[1..], d);
    }
  }

  /** One `strtok(_, " ")` call reads the first word and leaves the others. */
  lemma {:induction false} NextReadsWords(s: string)
    ensures Next(s, ' ').None? ==> Words(s) == []
    ensures Next(s, ' ').Some? ==>
              Words(s) == [Next(s, ' ').value.token] + Words(Next(s, ' ').value.rest)
  {
    if |s| == 0 {
    } else if s[0] == ' ' {
      NextReadsWords(s[1..]);
      NonEmptyAppend([""], Split(s[1..], ' '));
    } else {
      var sc := TakeToken(s, ' ');
      TakeTokenSplits(s, ' ');
      if Split(s, ' ') == [sc.token] + Split(sc.rest, ' ') {
        NonEmptyAppend([sc.token], Split(sc.rest, ' '));
      } else {
        assert Words(sc.rest) == [];
      }
    }
  }

  /** A token ended by a delimiter is read whole and the delimiter consumed. */
  lemma {:induction false} TakeWord(w: string, d: char, r: string)
    requires d !in w
    ensures TakeToken(w + [d] + r, d) == Scan(w, r)
    ensures TakeToken(w, d) == Scan(w, "")
  {
    if |w| > 0 {
      assert (w + [d] + r)[1..] == w[1..] + [d] + r;
      TakeWord(w[1..], d, r);
    }
  }

  lemma {:induction false} NextWord(w: string, r: string)
    requires Plain(w)
    ensures Next(w + " " + r, ' ') == Some(Scan(w, r))
    ensures Next(w, ' ') == Some(Scan(w, ""))
  {
    TakeWord(w, ' ', r);
  }

  /** `strtok(_, "\n")` on newline-free text returns all of it, or None when it is empty. */
  lemma {:induction false} NextLine(r: string)
    requires '\n' !in r
    ensures Next(r, '\n') == if r == "" then None else Some(Scan(r, ""))
  {
    if r != "" {
      TakeWord(r, '\n', "");
    }
  }

  lemma {:induction false} SpacedAppend(a: seq<string>, b: seq<string>)
    ensures Spaced(a + b) == Spaced(a) + Spaced(b)
  {
    if |a| == 0 {
      assert a + b == b;
    } else {
      assert (a + b)[1..] == a[1..] + b;
      SpacedAppend(a[1..], b);
    }
  }

  lemma {:induction false} UnwordsAppend(a: seq<string>, b: seq<string>)
    requires |b| > 0
    ensures Unwords(a + b) == Spaced(a) + Unwords(b)
  {
    if |a| == 0 {
      assert a + b == b;
    } else {
      assert (a + b)[1..] == a[1..] + b;
      UnwordsAppend(a[1..], b);
    }
  }

  /** Joining plain words with single spaces and reading the words back is the identity. */
  lemma {:induction false} WordsOfUnwords(ws: seq<string>)
    requires forall i | 0 <= i < |ws| :: Plain(ws[i])
    ensures Words(Unwords(ws)) == ws
  {
    if |ws| == 1 {
      NextWord(ws[0], "");
      NextReadsWords(ws[0]);
      assert Words("") == [];
    } else if |ws| > 1 {
      NextWord(ws[0], Unwords(ws[1..]));
      NextReadsWords(Unwords(ws));
      WordsOfUnwords(ws[1..]);
    }
  }

  lemma {:induction false} UnwordsNoNewline(ws: seq<string>)
    requires forall i | 0 <= i < |ws| :: Plain(ws[i])
    ensures '\n' !in Unwords(ws)
  {
    if |ws| > 1 {
      UnwordsNoNewline(ws[1..]);
    }
  }

  lemma {:induction false} SpacedNoNewline(ws: seq<string>)
    requires forall i | 0 <= i < |ws| :: Plain(ws[i])
    ensures '\n' !in Spaced(ws)
  {
    if |ws| > 0 {
      SpacedNoNewline(ws[1..]);
    }
  }

  lemma {:induction false} TakeAppend<T>(a: seq<T>, b: seq<T>, n: nat)
    requires |a| <= n
    ensures Take(a + b, n) == a + Take(b, n - |a|)
  {
    if |a + b| > n {
      assert (a + b)[..n] == a + b[..n - |a|];
    }
  }

  /**
   * The text the `exit` builtin prints before its farewell: `tokens[1..]`,
   * each followed by a space except the last, which is followed by a newline;
   * nothing at all when there is no argument.
   */
  function EchoLine(args: seq<string>): string
  {
    if |args| > 1 then Unwords(args[1..]) + "\n" else ""
  }

  /** The `printf` loop of `builtin_exit`, one argument at a time. */
  method EchoArguments(args: seq<string>) returns (text: string)
    ensures text == EchoLine(args)
  {
    text := "";
    if |args| > 1 {
      var i := 1;
      while i < |args|
        invariant 1 <= i <= |args|
        invariant i < |args| ==> text == Spaced(args[1..i])
        invariant i == |args| ==> text == Unwords(args[1..]) + "\n"
      {
        SpacedAppend(args[1..i], [args[i]]);
        assert args[1..i + 1] == args[1..i] + [args[i]];
        if i < |args| - 1 {
          text := text + args[i] + " ";
        } else {
          UnwordsAppend(args[1..i], [args[i]]);
          assert args[1..] == args[1..i] + [args[i]];
          text := text + args[i] + "\n";
        }
        i := i + 1;
      }
    }
  }

  /**
   * What `exit` echoes is its arguments again: cutting the echoed line at its
   * newline and splitting it into words gives back `tokens[1..]`.
   */
  lemma {:induction false} EchoRetokenizes(args: seq<string>)
    requires |args| > 1
    requires forall i | 1 <= i < |args| :: Plain(args[i])
    ensures Words(CutAtNewline(EchoLine(args))) == args[1..]
  {
    UnwordsNoNewline(args[1..]);
    CutAtFirstNewline(Unwords(args[1..]), "");
    assert Unwords(args[1..]) + "\n" == Unwords(args[1..]) + "\n" + "";
    WordsOfUnwords(args[1..]);
  }
}
