/**
 * `expand_wildcards` of mysh.c, as written: each token containing `*` is
 * matched against the listing of the current directory; its k > 0 matches
 * overwrite the slots from its own index on and `token_count` grows by k - 1;
 * a pattern without matches is kept and reported. Where the C code would
 * read a NULL slot, index past the 64 slots of `tokens` or past the 64 slots
 * of the `matches` buffer, the model stops with a fault status instead, in
 * the state just before the faulting access: matches that run past slot 63
 * have been copied up to slot 63, and the count is not yet updated.
 */
module MyshWildcards {
  import opened Common
  import opened Tokens
  import opened Glob
  import opened MyshParse

  /** How expansion ended. */
  datatype Status =
    | Completed
    | OpendirFailed                  // `perror("opendir"); return;`
    | NullSlot(index: nat)           // `strchr(NULL, '*')`
    | SlotOutOfRange(index: nat)     // `cmd->tokens[index]` with index >= 64
    | MatchBufferOverflow(index: nat) // a 65th match for the pattern at `index`

  /** The 64 slots and the count after expansion, how it ended and what it wrote to stderr. */
  datatype Expansion = Expansion(slots: seq<Option<string>>, count: int, status: Status, diagnostics: seq<Output>)

  function NoMatches(pattern: string): Output
  {
    Stderr("No matches for wildcard: " + pattern + "\n")
  }

  /** The slots with `ms` written from index `i` on. */
  function Overwrite(slots: seq<Option<string>>, i: nat, ms: seq<string>): (r: seq<Option<string>>)
    requires i + |ms| <= |slots|
    ensures |r| == |slots|
    ensures forall j | 0 <= j < |slots| && !(i <= j < i + |ms|) :: r[j] == slots[j]
    ensures forall j | 0 <= j < |ms| :: r[i + j] == Some(ms[j])
  {
    seq(|slots|, j requires 0 <= j < |slots| => if i <= j < i + |ms| then Some(ms[j - i]) else slots[j])
  }

  /**
   * The `for` loop of `expand_wildcards` from index `i`, over the slots and
   * count as they are at that point, after `written` went to stderr;
   * `listing` is what `readdir` yields on the current directory, None when
   * `opendir` fails.
   */
  function ExpandFrom(slots: seq<Option<string>>, count: int, i: nat, listing: Option<seq<string>>,
                      written: seq<Output>): (e: Expansion)
    requires |slots| == MAX_TOKENS && i <= MAX_TOKENS
    ensures |e.slots| == MAX_TOKENS
    ensures e.count >= count
    ensures forall j | 0 <= j < i :: e.slots[j] == slots[j]
    ensures written <= e.diagnostics
    decreases MAX_TOKENS - i
  {
    if i >= count then Expansion(slots, count, Completed, written)
    else if i == MAX_TOKENS then Expansion(slots, count, SlotOutOfRange(i), written)
    else match slots[i]
      case None => Expansion(slots, count, NullSlot(i), written)
      case Some(pattern) =>
        if '*' !in pattern then ExpandFrom(slots, count, i + 1, listing, written)
        else match listing
          case None => Expansion(slots, count, OpendirFailed, written + [Perror("opendir")])
          case Some(entries) =>
            var ms := Matching(entries, pattern);
            if |ms| > MAX_TOKENS then Expansion(slots, count, MatchBufferOverflow(i), written)
            else if |ms| == 0 then ExpandFrom(slots, count, i + 1, listing, written + [NoMatches(pattern)])
            else if i + |ms| > MAX_TOKENS then
              Expansion(Overwrite(slots, i, ms[..MAX_TOKENS - i]), count, SlotOutOfRange(MAX_TOKENS), written)
            else ExpandFrom(Overwrite(slots, i, ms), count + |ms| - 1, i + 1, listing, written)
  }

  /** One pass of the loop over a token without `*`, or a pattern without matches. */
  lemma {:induction false} ExpandPass(slots: seq<Option<string>>, count: int, i: nat, listing: Option<seq<string>>, written: seq<Output>)
    requires |slots| == MAX_TOKENS && i < MAX_TOKENS && i < count && slots[i].Some?
    requires '*' !in slots[i].value ||
             (listing.Some? && |Matching(listing.value, slots[i].value)| == 0)
    ensures ExpandFrom(slots, count, i, listing, written) ==
              ExpandFrom(slots, count, i + 1, listing,
                         if '*' !in slots[i].value then written else written + [NoMatches(slots[i].value)])
  {
  }

  /** One pass of the loop over a pattern whose matches fit: they are written from `i` on. */
  lemma {:induction false} ExpandMatches(slots: seq<Option<string>>, count: int, i: nat, entries: seq<string>, written: seq<Output>)
    requires |slots| == MAX_TOKENS && i < MAX_TOKENS && i < count && slots[i].Some? && '*' in slots[i].value
    requires var k := |Matching(entries, slots[i].value)|; 0 < k && i + k <= MAX_TOKENS
    ensures var ms := Matching(entries, slots[i].value);
            ExpandFrom(slots, count, i, Some(entries), written) ==
              ExpandFrom(Overwrite(slots, i, ms), count + |ms| - 1, i + 1, Some(entries), written)
  {
  }

  /**
   * The passes of the loop that end it early, each in the state just before
   * the access that would fault; matches running past slot 63 have filled
   * the slots up to it.
   */
  lemma {:induction false} ExpandStops(slots: seq<Option<string>>, count: int, i: nat, listing: Option<seq<string>>, written: seq<Output>)
    requires |slots| == MAX_TOKENS && i <= MAX_TOKENS && i < count
    ensures i == MAX_TOKENS ==>
              ExpandFrom(slots, count, i, listing, written) == Expansion(slots, count, SlotOutOfRange(i), written)
    ensures i < MAX_TOKENS && slots[i].None? ==>
              ExpandFrom(slots, count, i, listing, written) == Expansion(slots, count, NullSlot(i), written)
    ensures i < MAX_TOKENS && slots[i].Some? && '*' in slots[i].value ==>
              && (listing.None? ==>
                    ExpandFrom(slots, count, i, listing, written) ==
                    Expansion(slots, count, OpendirFailed, written + [Perror("opendir")]))
              && (listing.Some? && |Matching(listing.value, slots[i].value)| > MAX_TOKENS ==>
                    ExpandFrom(slots, count, i, listing, written) ==
                    Expansion(slots, count, MatchBufferOverflow(i), written))
              && (listing.Some? && 0 < |Matching(listing.value, slots[i].value)| <= MAX_TOKENS &&
                  i + |Matching(listing.value, slots[i].value)| > MAX_TOKENS ==>
                    ExpandFrom(slots, count, i, listing, written) ==
                    Expansion(Overwrite(slots, i, Matching(listing.value, slots[i].value)[..MAX_TOKENS - i]),
                              count, SlotOutOfRange(MAX_TOKENS), written))
  {
  }

  /** `expand_wildcards(cmd)` on the slots and count it is called with. */
  function Expand(slots: seq<Option<string>>, count: int, listing: Option<seq<string>>): (e: Expansion)
    requires |slots| == MAX_TOKENS
    ensures |e.slots| == MAX_TOKENS && e.count >= count
    ensures e.status == OpendirFailed ==> listing.None?
    ensures listing.None? ==> e.slots == slots && e.count == count
  {
    ExpandOpendirMeansNoListing(slots, count, 0, listing, []);
    if listing.None? then
      ExpandWithoutListing(slots, count, 0, []);
      ExpandFrom(slots, count, 0, listing, [])
    else ExpandFrom(slots, count, 0, listing, [])
  }

  /** The readdir loop: the matches of `pattern`, in listing order, in a 64-slot buffer. */
  method CollectMatches(entries: seq<string>, pattern: string) returns (matches: array<string>, k: int, overflow: bool)
    ensures fresh(matches) && matches.Length == MAX_TOKENS
    ensures overflow <==> |Matching(entries, pattern)| > MAX_TOKENS
    ensures !overflow ==> k == |Matching(entries, pattern)| && matches[..k] == Matching(entries, pattern)
  {
    matches := new string[MAX_TOKENS](_ => "");
    k := 0;
    overflow := false;
    var j := 0;
    while j < |entries|
      invariant 0 <= j <= |entries| && 0 <= k <= MAX_TOKENS
      invariant k == |Matching(entries[..j], pattern)| && matches[..k] == Matching(entries[..j], pattern)
    {
      MatchingAppend(entries[..j], [entries[j]], pattern);
      assert entries[..j + 1] == entries[..j] + [entries[j]];
      if Matches(pattern, entries[j]) {
        if k == MAX_TOKENS {
          MatchingAppend(entries[..j + 1], entries[j + 1..], pattern);
          assert entries == entries[..j + 1] + entries[j + 1..];
          overflow := true;
          return;
        }
        matches[k] := entries[j];
        k := k + 1;
      }
      j := j + 1;
    }
    assert entries[..j] == entries;
  }

  /** Every field of `cmd` but the slot contents and the count is as it was. */
  twostate predicate KeepsShape(cmd: Command)
    reads cmd
  {
    && cmd.tokens == old(cmd.tokens) && cmd.Repr == old(cmd.Repr) && cmd.next == old(cmd.next)
    && cmd.isBuiltin == old(cmd.isBuiltin) && cmd.hasPipe == old(cmd.hasPipe)
    && cmd.inputFile == old(cmd.inputFile) && cmd.outputFile == old(cmd.outputFile)
  }

  /**
   * `expand_wildcards(cmd)` in place on `cmd.tokens` and `cmd.tokenCount`.
   * The loop bound is the count as it grows.
   */
  method ExpandWildcards(cmd: Command, listing: Option<seq<string>>) returns (status: Status, diagnostics: seq<Output>)
    requires cmd.Valid()
    modifies cmd, cmd.tokens
    ensures var e := Expand(old(cmd.tokens[..]), old(cmd.tokenCount), listing);
            cmd.tokens[..] == e.slots && cmd.tokenCount == e.count && status == e.status && diagnostics == e.diagnostics
    ensures cmd.Valid() && KeepsShape(cmd)
  {
    ghost var target := ExpandFrom(cmd.tokens[..], cmd.tokenCount, 0, listing, []);
    diagnostics := [];
    status := Completed;
    var i := 0;
    while i < cmd.tokenCount
      invariant 0 <= i <= MAX_TOKENS
      invariant cmd.Valid() && KeepsShape(cmd)
      invariant target == ExpandFrom(cmd.tokens[..], cmd.tokenCount, i, listing, diagnostics)
      invariant status == Completed
      decreases MAX_TOKENS - i
    {
      if i == MAX_TOKENS {
        ExpandStops(cmd.tokens[..], cmd.tokenCount, i, listing, diagnostics);
        status := SlotOutOfRange(i);
        break;
      }
      status, diagnostics := ExpandAt(cmd, i, listing, diagnostics);
      if status != Completed {
        break;
      }
      i := i + 1;
    }
  }

  /**
   * The body of the `for` loop for index `i`: either the loop goes on at
   * `i + 1`, or it ends here with a fault or an `opendir` failure.
   */
  method ExpandAt(cmd: Command, i: int, listing: Option<seq<string>>, written: seq<Output>)
      returns (status: Status, diagnostics: seq<Output>)
    requires cmd.Valid() && 0 <= i < MAX_TOKENS && i < cmd.tokenCount
    modifies cmd, cmd.tokens
    ensures cmd.Valid() && KeepsShape(cmd)
    ensures status == Completed ==>
              ExpandFrom(old(cmd.tokens[..]), old(cmd.tokenCount), i, listing, written) ==
              ExpandFrom(cmd.tokens[..], cmd.tokenCount, i + 1, listing, diagnostics)
    ensures status != Completed ==>
              ExpandFrom(old(cmd.tokens[..]), old(cmd.tokenCount), i, listing, written) ==
              Expansion(cmd.tokens[..], cmd.tokenCount, status, diagnostics)
  {
    ExpandStops(cmd.tokens[..], cmd.tokenCount, i, listing, written);
    diagnostics := written;
    var slot := cmd.tokens[i];
    if slot.None? {
      return NullSlot(i), diagnostics;
    }
    var pattern := slot.value;
    if '*' !in pattern {
      ExpandPass(cmd.tokens[..], cmd.tokenCount, i, listing, written);
      return Completed, diagnostics;
    }
    if listing.None? {
      return OpendirFailed, diagnostics + [Perror("opendir")];
    }
    status, diagnostics := ExpandPattern(cmd, i, listing.value, written);
  }

  /** The pattern in slot `i` against the listing `opendir` opened: the matches, if they fit, are written from `i` on. */
  method ExpandPattern(cmd: Command, i: int, entries: seq<string>, written: seq<Output>)
      returns (status: Status, diagnostics: seq<Output>)
    requires cmd.Valid() && 0 <= i < MAX_TOKENS && i < cmd.tokenCount
    requires cmd.tokens[i].Some? && '*' in cmd.tokens[i].value
    modifies cmd, cmd.tokens
    ensures cmd.Valid() && KeepsShape(cmd)
    ensures status == Completed ==>
              ExpandFrom(old(cmd.tokens[..]), old(cmd.tokenCount), i, Some(entries), written) ==
              ExpandFrom(cmd.tokens[..], cmd.tokenCount, i + 1, Some(entries), diagnostics)
    ensures status != Completed ==>
              ExpandFrom(old(cmd.tokens[..]), old(cmd.tokenCount), i, Some(entries), written) ==
              Expansion(cmd.tokens[..], cmd.tokenCount, status, diagnostics)
  {
    var pattern := cmd.tokens[i].value;
    diagnostics := written;
    var matches, k, overflow := CollectMatches(entries, pattern);
    if overflow {
      ExpandStops(cmd.tokens[..], cmd.tokenCount, i, Some(entries), written);
      return MatchBufferOverflow(i), diagnostics;
    }
    if k == 0 {
      ExpandPass(cmd.tokens[..], cmd.tokenCount, i, Some(entries), written);
      return Completed, diagnostics + [NoMatches(pattern)];
    }
    status := PlaceMatches(cmd, i, entries, matches, k, written);
  }

  /**
   * The `match_count > 0` branch: the k matches are copied from slot `i` on
   * and the count grows by k - 1, or the copy stops at slot 63 when they do
   * not fit.
   */
  method PlaceMatches(cmd: Command, i: int, entries: seq<string>, matches: array<string>, k: int,
                      written: seq<Output>) returns (status: Status)
    requires cmd.Valid() && 0 <= i < MAX_TOKENS && i < cmd.tokenCount
    requires cmd.tokens[i].Some? && '*' in cmd.tokens[i].value
    requires 0 < k <= MAX_TOKENS && k <= matches.Length
    requires matches[..k] == Matching(entries, cmd.tokens[i].value)
    modifies cmd, cmd.tokens
    ensures cmd.Valid() && KeepsShape(cmd)
    ensures status == Completed ==>
              ExpandFrom(old(cmd.tokens[..]), old(cmd.tokenCount), i, Some(entries), written) ==
              ExpandFrom(cmd.tokens[..], cmd.tokenCount, i + 1, Some(entries), written)
    ensures status != Completed ==>
              ExpandFrom(old(cmd.tokens[..]), old(cmd.tokenCount), i, Some(entries), written) ==
              Expansion(cmd.tokens[..], cmd.tokenCount, status, written)
  {
    ghost var slots, count, ms := cmd.tokens[..], cmd.tokenCount, matches[..k];
    if i + k > MAX_TOKENS {
      ExpandStops(slots, count, i, Some(entries), written);
      assert matches[..MAX_TOKENS - i] == ms[..MAX_TOKENS - i];
      WriteMatches(cmd, i, matches, MAX_TOKENS - i);
      return SlotOutOfRange(MAX_TOKENS);
    }
    ExpandMatches(slots, count, i, entries, written);
    WriteMatches(cmd, i, matches, k);
    assert cmd.tokens[..] == Overwrite(slots, i, ms);
    cmd.tokenCount := cmd.tokenCount + k - 1;
    return Completed;
  }

  /** `cmd->tokens[i + j] = matches[j]` for every j below k. */
  method WriteMatches(cmd: Command, i: int, matches: array<string>, k: int)
    requires cmd.Valid() && 0 <= i && 0 <= k <= matches.Length && i + k <= MAX_TOKENS
    modifies cmd.tokens
    ensures cmd.Valid() && cmd.tokens[..] == Overwrite(old(cmd.tokens[..]), i, matches[..k])
  {
    ghost var before := cmd.tokens[..];
    var j := 0;
    while j < k
      invariant 0 <= j <= k
      invariant cmd.tokens[..] == Overwrite(before, i, matches[..j])
    {
      cmd.tokens[i + j] := Some(matches[j]);
      j := j + 1;
      assert cmd.tokens[..] == Overwrite(before, i, matches[..j]);
    }
  }

  /**
   * Without a directory listing nothing is overwritten: expansion ends,
   * at the first pattern or at the end, with the slots and count it started with.
   */
  lemma {:induction false} ExpandWithoutListing(slots: seq<Option<string>>, count: int, i: nat, written: seq<Output>)
    requires |slots| == MAX_TOKENS && i <= MAX_TOKENS
    ensures ExpandFrom(slots, count, i, None, written).slots == slots
    ensures ExpandFrom(slots, count, i, None, written).count == count
    decreases MAX_TOKENS - i
  {
    if i < count && i < MAX_TOKENS && slots[i].Some? && '*' !in slots[i].value {
      ExpandWithoutListing(slots, count, i + 1, written);
    }
  }

  /** `opendir` is the only way expansion can report OpendirFailed: a listing never fails. */
  lemma {:induction false} ExpandOpendirMeansNoListing(slots: seq<Option<string>>, count: int, i: nat,
                                                      listing: Option<seq<string>>, written: seq<Output>)
    requires |slots| == MAX_TOKENS && i <= MAX_TOKENS
    ensures ExpandFrom(slots, count, i, listing, written).status == OpendirFailed ==> listing.None?
    decreases MAX_TOKENS - i
  {
    if listing.Some? && i < count && i < MAX_TOKENS && slots[i].Some? {
      var pattern := slots[i].value;
      if '*' !in pattern {
        ExpandOpendirMeansNoListing(slots, count, i + 1, listing, written);
      } else {
        var ms := Matching(listing.value, pattern);
        if |ms| == 0 {
          ExpandOpendirMeansNoListing(slots, count, i + 1, listing, written + [NoMatches(pattern)]);
        } else if |ms| <= MAX_TOKENS && i + |ms| <= MAX_TOKENS {
          ExpandOpendirMeansNoListing(Overwrite(slots, i, ms), count + |ms| - 1, i + 1, listing, written);
        }
      }
    }
  }

  /**
   * A completed expansion of a command whose first `count` slots were filled
   * leaves at most 64 tokens and no NULL slot below the new count.
   */
  lemma {:induction false} ExpandCompletedFilled(slots: seq<Option<string>>, count: int, i: nat,
                                                 listing: Option<seq<string>>, written: seq<Output>)
    requires |slots| == MAX_TOKENS && i <= MAX_TOKENS
    requires forall j | 0 <= j < i :: slots[j].Some?
    ensures var e := ExpandFrom(slots, count, i, listing, written);
            e.status == Completed ==> e.count <= MAX_TOKENS && forall j | 0 <= j < e.count :: e.slots[j].Some?
    decreases MAX_TOKENS - i
  {
    if i < count && i < MAX_TOKENS && slots[i].Some? {
      var pattern := slots[i].value;
      if '*' !in pattern {
        ExpandCompletedFilled(slots, count, i + 1, listing, written);
      } else if listing.Some? {
        var ms := Matching(listing.value, pattern);
        if |ms| == 0 {
          ExpandCompletedFilled(slots, count, i + 1, listing, written + [NoMatches(pattern)]);
        } else if |ms| <= MAX_TOKENS && i + |ms| <= MAX_TOKENS {
          var next := Overwrite(slots, i, ms);
          assert next[i] == Some(ms[0]);
          ExpandCompletedFilled(next, count + |ms| - 1, i + 1, listing, written);
        }
      }
    }
  }
}

module MyshWildcardFacts {
  import opened Common
  import opened Tokens
  import opened Glob
  import opened MyshParse
  import opened MyshWildcards

  /** Slots `i..j` hold tokens that contain no `*`. */
  predicate PlainFrom(slots: seq<Option<string>>, i: nat, j: nat)
    requires i <= j <= |slots|
  {
    forall m | i <= m < j :: slots[m].Some? && '*' !in slots[m].value
  }

  /** The loop steps over tokens without `*` and changes nothing on the way. */
  lemma {:induction false} ExpandSkipsPlain(slots: seq<Option<string>>, count: int, i: nat, j: nat,
                                            listing: Option<seq<string>>, written: seq<Output>)
    requires |slots| == MAX_TOKENS && i <= j <= MAX_TOKENS && j <= count
    requires PlainFrom(slots, i, j)
    ensures ExpandFrom(slots, count, i, listing, written) == ExpandFrom(slots, count, j, listing, written)
    decreases j - i
  {
    if i < j {
      ExpandPass(slots, count, i, listing, written);
      ExpandSkipsPlain(slots, count, i + 1, j, listing, written);
    }
  }

  /**
   * Tokens without `*` are left alone: when no token contains `*`, expansion
   * completes with the slots and the count unchanged and writes nothing.
   */
  lemma {:induction false} ExpandNoPatterns(slots: seq<Option<string>>, count: int, listing: Option<seq<string>>)
    requires |slots| == MAX_TOKENS && 0 <= count <= MAX_TOKENS && PlainFrom(slots, 0, count)
    ensures Expand(slots, count, listing) == Expansion(slots, count, Completed, [])
  {
    ExpandSkipsPlain(slots, count, 0, count, listing, []);
  }

  /**
   * When `opendir` fails at the first token containing `*`, expansion stops
   * there with `perror("opendir")` and the command as it was.
   */
  lemma {:induction false} ExpandOpendirFails(slots: seq<Option<string>>, count: int, p: nat)
    requires |slots| == MAX_TOKENS && p < MAX_TOKENS && p < count && PlainFrom(slots, 0, p)
    requires slots[p].Some? && '*' in slots[p].value
    ensures Expand(slots, count, None) == Expansion(slots, count, OpendirFailed, [Perror("opendir")])
  {
    ExpandSkipsPlain(slots, count, 0, p, None, []);
    ExpandStops(slots, count, p, None, []);
  }

  /**
   * A pattern with no match is kept: the slots and the count stay, and the
   * only output is the "No matches" line for it.
   */
  lemma {:induction false} ExpandNoMatch(slots: seq<Option<string>>, count: int, p: nat, entries: seq<string>)
    requires |slots| == MAX_TOKENS && p < MAX_TOKENS && p < count <= MAX_TOKENS
    requires PlainFrom(slots, 0, p) && PlainFrom(slots, p + 1, count)
    requires slots[p].Some? && '*' in slots[p].value && Matching(entries, slots[p].value) == []
    ensures Expand(slots, count, Some(entries)) ==
              Expansion(slots, count, Completed, [NoMatches(slots[p].value)])
  {
    var w := [NoMatches(slots[p].value)];
    assert [] + w == w;
    ExpandSkipsPlain(slots, count, 0, p, Some(entries), []);
    ExpandPass(slots, count, p, Some(entries), []);
    ExpandSkipsPlain(slots, count, p + 1, count, Some(entries), w);
  }

  /** The wildcards of each token spliced in its place; a token with no match stays. */
  function Spliced(ts: seq<string>, entries: seq<string>): seq<string>
  {
    if |ts| == 0 then []
    else
      var ms := Matching(entries, ts[0]);
      (if '*' in ts[0] && |ms| > 0 then ms else [ts[0]]) + Spliced(ts[1..], entries)
  }

  lemma {:induction false} SplicedAppend(a: seq<string>, b: seq<string>, entries: seq<string>)
    ensures Spliced(a + b, entries) == Spliced(a, entries) + Spliced(b, entries)
  {
    if |a| == 0 {
      assert a + b == b;
    } else {
      assert (a + b)[1..] == a[1..] + b;
      SplicedAppend(a[1..], b, entries);
    }
  }

  /**
   * Splicing replaces one pattern by its matches (or keeps it) and leaves
   * the arguments on both sides of it where they were.
   */
  lemma {:induction false} SplicedPattern(pre: seq<string>, p: string, post: seq<string>, entries: seq<string>)
    requires forall j | 0 <= j < |pre| :: '*' !in pre[j]
    requires forall j | 0 <= j < |post| :: '*' !in post[j]
    ensures Spliced(pre + [p] + post, entries) ==
              pre + (if '*' in p && |Matching(entries, p)| > 0 then Matching(entries, p) else [p]) + post
  {
    SplicedAppend(pre + [p], post, entries);
    SplicedAppend(pre, [p], entries);
    SplicedPlain(pre, entries);
    SplicedPlain(post, entries);
    SplicedOne(p, entries);
  }

  lemma {:induction false} SplicedOne(p: string, entries: seq<string>)
    ensures Spliced([p], entries) == if '*' in p && |Matching(entries, p)| > 0 then Matching(entries, p) else [p]
  {
    assert [p][1..] == [];
    assert [p][0] == p;
  }

  lemma {:induction false} SplicedPlain(ts: seq<string>, entries: seq<string>)
    requires forall j | 0 <= j < |ts| :: '*' !in ts[j]
    ensures Spliced(ts, entries) == ts
  {
    if |ts| > 0 {
      SplicedPlain(ts[1..], entries);
    }
  }

  /** Writing `ms` over the last filled slot extends the layout by the matches. */
  lemma {:induction false} OverwriteLast(ts: seq<string>, ms: seq<string>)
    requires 0 < |ts| && |ts| - 1 + |ms| <= MAX_TOKENS && |ms| > 0
    ensures Overwrite(Layout(ts), |ts| - 1, ms) == Layout(ts[..|ts| - 1] + ms)
  {
    var n := |ts| - 1;
    forall j | 0 <= j < MAX_TOKENS
      ensures Overwrite(Layout(ts), n, ms)[j] == Layout(ts[..n] + ms)[j]
    {
      if n <= j < n + |ms| {
        assert (ts[..n] + ms)[j] == ms[j - n];
      }
    }
  }

  /** The layout of tokens without `*` is plain in the slots they fill. */
  lemma {:induction false} LayoutPlain(ts: seq<string>, i: nat, j: nat)
    requires i <= j <= |ts| <= MAX_TOKENS
    requires forall m | i <= m < j :: '*' !in ts[m]
    ensures PlainFrom(Layout(ts), i, j)
  {
  }

  lemma {:induction false} SplicedLast(ts: seq<string>, entries: seq<string>)
    requires 0 < |ts| && forall j | 0 <= j < |ts| - 1 :: '*' !in ts[j]
    requires '*' in ts[|ts| - 1]
    ensures var ms := Matching(entries, ts[|ts| - 1]);
            Spliced(ts, entries) == ts[..|ts| - 1] + if ms == [] then [ts[|ts| - 1]] else ms
  {
    var n := |ts| - 1;
    assert ts == ts[..n] + [ts[n]] + [];
    SplicedPattern(ts[..n], ts[n], [], entries);
  }

  /**
   * On the slots: plain tokens, then one pattern in the last counted slot
   * whose matches are plain; the loop writes the matches and completes.
   */
  lemma {:induction false} ExpandSingleMatch(slots: seq<Option<string>>, n: nat, entries: seq<string>)
    requires |slots| == MAX_TOKENS && n < MAX_TOKENS && PlainFrom(slots, 0, n)
    requires slots[n].Some? && '*' in slots[n].value
    requires var ms := Matching(entries, slots[n].value);
             0 < |ms| && n + |ms| <= MAX_TOKENS && PlainFrom(Overwrite(slots, n, ms), n + 1, n + |ms|)
    ensures var ms := Matching(entries, slots[n].value);
            ExpandFrom(slots, n + 1, 0, Some(entries), []) ==
              Expansion(Overwrite(slots, n, ms), n + |ms|, Completed, [])
  {
    var ms := Matching(entries, slots[n].value);
    ExpandSkipsPlain(slots, n + 1, 0, n, Some(entries), []);
    ExpandMatches(slots, n + 1, n, entries, []);
    ExpandFinishes(Overwrite(slots, n, ms), n + |ms|, n + 1, Some(entries), []);
  }

  /** The matches of a last pattern take its slot and the ones after it. */
  lemma {:induction false} ExpandLastMatches(ts: seq<string>, entries: seq<string>)
    requires 0 < |ts| <= MAX_TOKENS
    requires forall j | 0 <= j < |ts| - 1 :: '*' !in ts[j]
    requires '*' in ts[|ts| - 1]
    requires var ms := Matching(entries, ts[|ts| - 1]);
             0 < |ms| && |ts| - 1 + |ms| <= MAX_TOKENS && forall j | 0 <= j < |ms| :: '*' !in ms[j]
    ensures var ms := Matching(entries, ts[|ts| - 1]);
            Expand(Layout(ts), |ts|, Some(entries)) ==
              Expansion(Layout(ts[..|ts| - 1] + ms), |ts| - 1 + |ms|, Completed, [])
  {
    var n := |ts| - 1;
    var ms := Matching(entries, ts[n]);
    LayoutPlain(ts, 0, n);
    OverwriteLast(ts, ms);
    MatchesPlain(ts[..n], ms);
    ExpandSingleMatch(Layout(ts), n, entries);
  }

  /** The matches written after `pre` are plain slots. */
  lemma {:induction false} MatchesPlain(pre: seq<string>, ms: seq<string>)
    requires 0 < |ms| && |pre| + |ms| <= MAX_TOKENS && forall j | 0 <= j < |ms| :: '*' !in ms[j]
    ensures PlainFrom(Layout(pre + ms), |pre| + 1, |pre| + |ms|)
  {
    assert forall m | |pre| + 1 <= m < |pre| + |ms| :: (pre + ms)[m] == ms[m - |pre|];
    LayoutPlain(pre + ms, |pre| + 1, |pre| + |ms|);
  }

  /** Past the last pattern only plain tokens are left, and the loop completes. */
  lemma {:induction false} ExpandFinishes(slots: seq<Option<string>>, count: int, i: nat, listing: Option<seq<string>>,
                       written: seq<Output>)
    requires |slots| == MAX_TOKENS && i <= count <= MAX_TOKENS
    requires PlainFrom(slots, i, count)
    ensures ExpandFrom(slots, count, i, listing, written) == Expansion(slots, count, Completed, written)
  {
    ExpandSkipsPlain(slots, count, i, count, listing, written);
  }

  /**
   * When the only token containing `*` is the last one and no match contains
   * `*`, the code as written does what splicing does: the matches take the
   * pattern's place, or the pattern stays with its "No matches" line.
   */
  lemma {:induction false} ExpandLastPattern(ts: seq<string>, entries: seq<string>)
    requires 0 < |ts| <= MAX_TOKENS
    requires forall j | 0 <= j < |ts| - 1 :: '*' !in ts[j]
    requires '*' in ts[|ts| - 1]
    requires var ms := Matching(entries, ts[|ts| - 1]);
             |ts| - 1 + |ms| <= MAX_TOKENS && forall j | 0 <= j < |ms| :: '*' !in ms[j]
    ensures var ms := Matching(entries, ts[|ts| - 1]);
            Spliced(ts, entries) == ts[..|ts| - 1] + if ms == [] then [ts[|ts| - 1]] else ms
    ensures var pattern := ts[|ts| - 1];
            var r := Spliced(ts, entries);
            Expand(Layout(ts), |ts|, Some(entries)) ==
              Expansion(Layout(r), |r|, Completed,
                        if Matching(entries, pattern) == [] then [NoMatches(pattern)] else [])
  {
    var n := |ts| - 1;
    SplicedLast(ts, entries);
    if Matching(entries, ts[n]) == [] {
      LayoutPlain(ts, 0, n);
      assert ts[..n] + [ts[n]] == ts;
      ExpandNoMatch(Layout(ts), |ts|, n, entries);
    } else {
      ExpandLastMatches(ts, entries);
    }
  }

  lemma {:induction false} TxtNames()
    ensures Matches("*.txt", "a.txt") && Matches("*.txt", "b.txt") && !Matches("*.txt", "c.md")
  {
    assert "*.txt" == ['*'] + ".txt";
    StarSuffix(".txt", "a.txt");
    StarSuffix(".txt", "b.txt");
    StarSuffix(".txt", "c.md");
  }

  /** The listing of the example: two text files and one other. */
  lemma {:induction false} TxtMatches()
    ensures Matching(["a.txt", "b.txt", "c.md"], "*.txt") == ["a.txt", "b.txt"]
  {
    TxtNames();
    var entries := ["a.txt", "b.txt", "c.md"];
    assert entries[1..] == ["b.txt", "c.md"];
    assert Matching(["c.md"], "*.txt") == [] by {
      assert ["c.md"][1..] == [];
    }
    assert Matching(["b.txt", "c.md"], "*.txt") == ["b.txt"] by {
      assert ["b.txt", "c.md"][1..] == ["c.md"];
    }
  }

  lemma {:induction false} ExampleOverwrite()
    ensures Overwrite(Layout(["ls", "*.txt", "notes"]), 1, ["a.txt", "b.txt"]) == Layout(["ls", "a.txt", "b.txt"])
  {
    var l := Overwrite(Layout(["ls", "*.txt", "notes"]), 1, ["a.txt", "b.txt"]);
    var r := Layout(["ls", "a.txt", "b.txt"]);
    assert forall j | 0 <= j < MAX_TOKENS :: l[j] == r[j];
  }

  lemma {:induction false} ExampleExpansion()
    ensures Expand(Layout(["ls", "*.txt", "notes"]), 3, Some(["a.txt", "b.txt", "c.md"])) ==
            Expansion(Layout(["ls", "a.txt", "b.txt"]), 4, NullSlot(3), [])
  {
    var entries := ["a.txt", "b.txt", "c.md"];
    var slots := Layout(["ls", "*.txt", "notes"]);
    var after := Layout(["ls", "a.txt", "b.txt"]);
    ExampleWords();
    assert slots[0] == Some("ls") && slots[1] == Some("*.txt") && after[2] == Some("b.txt") && after[3].None?;
    assert '*' in "*.txt" && '*' !in "b.txt" by {
      assert "*.txt"[0] == '*';
      assert "b.txt" == ['b', '.', 't', 'x', 't'];
    }
    TxtMatches();
    ExpandPass(slots, 3, 0, Some(entries), []);
    assert Expand(slots, 3, Some(entries)) == ExpandFrom(slots, 3, 1, Some(entries), []);
    ExpandMatches(slots, 3, 1, entries, []);
    ExampleOverwrite();
    assert ExpandFrom(slots, 3, 1, Some(entries), []) == ExpandFrom(after, 4, 2, Some(entries), []);
    ExpandPass(after, 4, 2, Some(entries), []);
    ExpandStops(after, 4, 3, Some(entries), []);
  }

  lemma {:induction false} ExampleWords()
    ensures '*' !in "ls" && '*' !in "notes"
    ensures ["ls"] + ["a.txt", "b.txt"] + ["notes"] == ["ls", "a.txt", "b.txt", "notes"]
  {
    assert "ls" == ['l', 's'];
    assert "notes" == ['n', 'o', 't', 'e', 's'];
    var r := ["ls"] + ["a.txt", "b.txt"] + ["notes"];
    assert r[0] == "ls" && r[1] == "a.txt" && r[2] == "b.txt" && r[3] == "notes";
  }

  lemma {:induction false} ExampleSpliced()
    ensures Spliced(["ls", "*.txt", "notes"], ["a.txt", "b.txt", "c.md"]) == ["ls", "a.txt", "b.txt", "notes"]
  {
    var entries := ["a.txt", "b.txt", "c.md"];
    var ms := ["a.txt", "b.txt"];
    TxtMatches();
    assert "*.txt"[0] == '*';
    ExampleWords();
    SplicedPattern(["ls"], "*.txt", ["notes"], entries);
    assert ["ls", "*.txt", "notes"] == ["ls"] + ["*.txt"] + ["notes"];
  }

  /**
   * `ls *.txt notes` as written: the two matches overwrite `*.txt` and
   * `notes`, the count becomes 4, and the loop then meets the NULL slot 3;
   * `notes` is lost. Splicing gives `ls a.txt b.txt notes`.
   */
  lemma {:induction false} OverwriteLosesArgument()
    ensures var entries := ["a.txt", "b.txt", "c.md"];
            && Expand(Layout(["ls", "*.txt", "notes"]), 3, Some(entries)) ==
               Expansion(Layout(["ls", "a.txt", "b.txt"]), 4, NullSlot(3), [])
            && Spliced(["ls", "*.txt", "notes"], entries) == ["ls", "a.txt", "b.txt", "notes"]
  {
    ExampleExpansion();
    ExampleSpliced();
  }

  /** A first token without `*` is still the first token after expansion. */
  lemma {:induction false} ExpandKeepsPlainFirst(slots: seq<Option<string>>, count: int, listing: Option<seq<string>>)
    requires |slots| == MAX_TOKENS && 0 < count && slots[0].Some? && '*' !in slots[0].value
    ensures Expand(slots, count, listing).slots[0] == slots[0]
  {
    ExpandPass(slots, count, 0, listing, []);
  }
}
