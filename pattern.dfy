/**
 * What the compiled route regular expression does (gemapi/router.py): the
 * pattern is the token list, a placeholder captures a non-empty run of
 * characters other than `/`, longest run first with backtracking as the
 * regular-expression engine tries it, and the pattern ends in `$`, which
 * Python's `re` accepts at the end of the string or just before a final
 * newline. `Pattern.match` anchors the start.
 */
module PathPattern {
  import opened Wrappers
  import opened PathTemplate

  /** Python's `$`: the end of the text, or the position just before a final "\n". */
  predicate AtEnd(s: string, i: nat)
  {
    i == |s| || (i + 1 == |s| && s[i] == '\n')
  }

  /** The end of the run of characters other than '/' that starts at i. */
  function RunEnd(s: string, i: nat): (k: nat)
    requires i <= |s|
    ensures i <= k <= |s|
    ensures forall m :: i <= m < k ==> s[m] != '/'
    ensures k < |s| ==> s[k] == '/'
    decreases |s| - i
  {
    if i < |s| && s[i] != '/' then RunEnd(s, i + 1) else i
  }

  /**
   * Matching the tokens against s from position i: the captures of the
   * placeholders, in order, of the first match the engine finds.
   */
  function MatchAt(toks: seq<Token>, s: string, i: nat): Option<seq<string>>
    requires i <= |s|
    decreases |toks|, |s| - i + 1
  {
    if toks == [] then
      if AtEnd(s, i) then Some([]) else None
    else
      match toks[0]
      case Lit(c) =>
        if i < |s| && s[i] == c then MatchAt(toks[1..], s, i + 1) else None
      case Slot(_, _) =>
        TryCaptures(toks[1..], s, i, RunEnd(s, i) - i)
  }

  /**
   * `[^/]+` followed by the rest of the pattern: try a capture of k
   * characters, then k - 1, down to 1.
   */
  function TryCaptures(rest: seq<Token>, s: string, i: nat, k: nat): Option<seq<string>>
    requires i + k <= |s|
    decreases |rest| + 1, k
  {
    if k == 0 then None
    else
      match MatchAt(rest, s, i + k)
      case Some(caps) => Some([s[i..i + k]] + caps)
      case None => TryCaptures(rest, s, i, k - 1)
  }

  /** `path_regex.match(path)`: the captures of the placeholders, or None. */
  function MatchPath(c: CompiledPath, path: string): Option<seq<string>>
  {
    MatchAt(c.tokens, path, 0)
  }

  // ---------------------------------------------------------------------------
  // The reference: which paths a template describes

  /** The number of placeholders among the tokens. */
  function SlotCount(toks: seq<Token>): nat
  {
    if toks == [] then 0 else (if toks[0].Slot? then 1 else 0) + SlotCount(toks[1..])
  }

  /** The path obtained by putting the captures in place of the placeholders. */
  function Fill(toks: seq<Token>, caps: seq<string>): string
  {
    if toks == [] then ""
    else
      match toks[0]
      case Lit(c) => [c] + Fill(toks[1..], caps)
      case Slot(_, _) =>
        if caps == [] then Fill(toks[1..], caps) else caps[0] + Fill(toks[1..], caps[1..])
  }

  /** A capture `[^/]+` can produce. */
  predicate IsSegment(c: string)
  {
    |c| >= 1 && '/' !in c
  }

  predicate ValidCaptures(toks: seq<Token>, caps: seq<string>)
  {
    |caps| == SlotCount(toks) && forall k :: 0 <= k < |caps| ==> IsSegment(caps[k])
  }

  /** s is the template with the captures filled in, optionally followed by one newline. */
  predicate Describes(toks: seq<Token>, caps: seq<string>, s: string)
  {
    ValidCaptures(toks, caps) && (Fill(toks, caps) == s || Fill(toks, caps) + "\n" == s)
  }

  // ---------------------------------------------------------------------------
  // Soundness: a match describes the whole path

  lemma {:induction false} MatchSound(toks: seq<Token>, s: string, i: nat)
    requires i <= |s|
    requires MatchAt(toks, s, i).Some?
    ensures Describes(toks, MatchAt(toks, s, i).value, s[i..])
    decreases |toks|, |s| - i + 1
  {
    var caps := MatchAt(toks, s, i).value;
    if toks == [] {
    } else {
      match toks[0]
      case Lit(c) =>
        MatchSound(toks[1..], s, i + 1);
        assert s[i..] == [c] + s[i + 1..];
      case Slot(_, _) =>
        TrySound(toks[1..], s, i, RunEnd(s, i) - i);
    }
  }

  lemma {:induction false} TrySound(rest: seq<Token>, s: string, i: nat, k: nat)
    requires i + k <= |s|
    requires forall m :: i <= m < i + k ==> s[m] != '/'
    requires TryCaptures(rest, s, i, k).Some?
    ensures var caps := TryCaptures(rest, s, i, k).value;
      |caps| >= 1 && i + |caps[0]| <= |s| && s[i..i + |caps[0]|] == caps[0] &&
      IsSegment(caps[0]) && Describes(rest, caps[1..], s[i + |caps[0]|..])
    decreases |rest| + 1, k
  {
    match MatchAt(rest, s, i + k)
    case Some(caps) =>
      MatchSound(rest, s, i + k);
      var c := s[i..i + k];
      assert '/' !in c by {
        forall m | 0 <= m < k ensures c[m] != '/' { assert c[m] == s[i + m]; }
      }
      assert ([c] + caps)[1..] == caps;
    case None =>
      TrySound(rest, s, i, k - 1);
  }

  /** Cons facts: the first placeholder's capture comes first in Fill. */
  lemma FillSlot(toks: seq<Token>, caps: seq<string>)
    requires toks != [] && toks[0].Slot? && caps != []
    ensures Fill(toks, caps) == caps[0] + Fill(toks[1..], caps[1..])
  {
  }

  /**
   * A match always names every placeholder with a non-empty, slash-free
   * capture, and the pattern with those captures in place is the whole
   * path, or the whole path but a final newline.
   */
  lemma MatchAnchored(c: CompiledPath, path: string)
    requires MatchPath(c, path).Some?
    ensures Describes(c.tokens, MatchPath(c, path).value, path)
  {
    MatchSound(c.tokens, path, 0);
    assert path[0..] == path;
  }

  // ---------------------------------------------------------------------------
  // Completeness: every path the template describes is matched

  lemma {:induction false} TryFinds(rest: seq<Token>, s: string, i: nat, k: nat, j: nat)
    requires i + k <= |s|
    requires 1 <= j <= k
    requires MatchAt(rest, s, i + j).Some?
    ensures TryCaptures(rest, s, i, k).Some?
    decreases k
  {
    if MatchAt(rest, s, i + k).None? {
      TryFinds(rest, s, i, k - 1, j);
    }
  }

  /** A slash-free text at position i lies within the run that RunEnd measures. */
  lemma RunCovers(s: string, i: nat, c: string)
    requires i + |c| <= |s| && s[i..i + |c|] == c && '/' !in c
    ensures RunEnd(s, i) >= i + |c|
  {
    assert forall m :: i <= m < i + |c| ==> s[m] != '/' by {
      forall m | i <= m < i + |c| ensures s[m] != '/' { assert s[m] == c[m - i]; }
    }
  }

  /** Describing s[i..] through a leading placeholder splits into its capture and the rest. */
  lemma DescribesSlot(toks: seq<Token>, caps: seq<string>, s: string, i: nat)
    requires i <= |s|
    requires toks != [] && toks[0].Slot?
    requires Describes(toks, caps, s[i..])
    ensures |caps| >= 1 && IsSegment(caps[0]) && i + |caps[0]| <= |s|
    ensures s[i..i + |caps[0]|] == caps[0]
    ensures Describes(toks[1..], caps[1..], s[i + |caps[0]|..])
  {
    var c0 := caps[0];
    var rest := toks[1..];
    var f := Fill(toks, caps);
    var f' := Fill(rest, caps[1..]);
    assert f == c0 + f';
    assert ValidCaptures(rest, caps[1..]) by {
      forall k | 0 <= k < |caps[1..]| ensures IsSegment(caps[1..][k]) { assert caps[1..][k] == caps[k + 1]; }
    }
    assert IsSegment(c0);
    if f == s[i..] {
      assert s[i..][..|c0|] == c0 && s[i..][|c0|..] == f';
    } else {
      assert f + "\n" == s[i..];
      assert (f + "\n")[..|c0|] == c0 && (f + "\n")[|c0|..] == f' + "\n";
    }
    assert s[i..i + |c0|] == s[i..][..|c0|];
    assert s[i + |c0|..] == s[i..][|c0|..];
  }

  /** Describing s[i..] through a leading literal splits into that character and the rest. */
  lemma DescribesLit(toks: seq<Token>, caps: seq<string>, s: string, i: nat)
    requires i <= |s|
    requires toks != [] && toks[0].Lit?
    requires Describes(toks, caps, s[i..])
    ensures i < |s| && s[i] == toks[0].c
    ensures Describes(toks[1..], caps, s[i + 1..])
  {
    var f := Fill(toks, caps);
    assert f == [toks[0].c] + Fill(toks[1..], caps);
    assert s[i] == s[i..][0];
    assert s[i + 1..] == s[i..][1..];
    assert (f + "\n")[1..] == f[1..] + "\n";
  }

  lemma {:induction false} MatchComplete(toks: seq<Token>, caps: seq<string>, s: string, i: nat)
    requires i <= |s|
    requires Describes(toks, caps, s[i..])
    ensures MatchAt(toks, s, i).Some?
    decreases |toks|
  {
    if toks == [] {
      assert s[i..] == "" || s[i..] == "\n";
      if s[i..] == "\n" { assert s[i] == s[i..][0]; }
    } else if toks[0].Lit? {
      DescribesLit(toks, caps, s, i);
      MatchComplete(toks[1..], caps, s, i + 1);
    } else {
      DescribesSlot(toks, caps, s, i);
      var c0 := caps[0];
      RunCovers(s, i, c0);
      MatchComplete(toks[1..], caps[1..], s, i + |c0|);
      TryFinds(toks[1..], s, i, RunEnd(s, i) - i, |c0|);
    }
  }

  /** A path matches exactly when the template describes it: an if-and-only-if. */
  lemma MatchIffDescribed(c: CompiledPath, path: string)
    ensures MatchPath(c, path).Some? <==> exists caps :: Describes(c.tokens, caps, path)
  {
    assert path[0..] == path;
    if MatchPath(c, path).Some? {
      MatchAnchored(c, path);
    }
    if exists caps :: Describes(c.tokens, caps, path) {
      var caps :| Describes(c.tokens, caps, path);
      MatchComplete(c.tokens, caps, path, 0);
    }
  }

  // ---------------------------------------------------------------------------
  // Greed: the first placeholder takes the longest capture that lets the rest match

  lemma {:induction false} TryLongestFirst(rest: seq<Token>, s: string, i: nat, k: nat)
    requires i + k <= |s|
    requires TryCaptures(rest, s, i, k).Some?
    ensures |TryCaptures(rest, s, i, k).value| >= 1
    ensures var c := TryCaptures(rest, s, i, k).value[0];
      1 <= |c| <= k && c == s[i..i + |c|] && MatchAt(rest, s, i + |c|).Some? &&
      forall j :: i + |c| < j <= i + k ==> MatchAt(rest, s, j).None?
    decreases k
  {
    if MatchAt(rest, s, i + k).None? {
      TryLongestFirst(rest, s, i, k - 1);
    }
  }

  // ---------------------------------------------------------------------------
  // Slash-separated templates: substituted segments come back as the captures

  /** Every placeholder ends the template or is followed by a '/'. */
  predicate SlashSeparated(toks: seq<Token>)
  {
    forall k :: 0 <= k < |toks| && toks[k].Slot? ==> k + 1 == |toks| || toks[k + 1] == Lit('/')
  }

  /**
   * Two slash-free segments, each followed by text that is empty or starts
   * with '/', can only spell the same string by being equal.
   */
  lemma SegmentBoundary(x: string, fx: string, y: string, fy: string)
    requires x + fx == y + fy
    requires '/' !in x && '/' !in y
    requires fx == "" || fx[0] == '/'
    requires fy == "" || fy[0] == '/'
    ensures x == y && fx == fy
  {
    var w := x + fx;
    assert forall m :: 0 <= m < |x| ==> w[m] != '/' by {
      forall m | 0 <= m < |x| ensures w[m] != '/' { assert w[m] == x[m]; }
    }
    assert forall m :: 0 <= m < |y| ==> w[m] != '/' by {
      forall m | 0 <= m < |y| ensures w[m] != '/' { assert w[m] == (y + fy)[m] == y[m]; }
    }
    assert |x| == |w| || w[|x|] == '/';
    assert |y| == |w| || w[|y|] == (y + fy)[|y|] == '/';
    assert |x| == |y|;
    assert x == w[..|x|] && y == w[..|y|];
  }

  lemma {:induction false} FillInjective(toks: seq<Token>, a: seq<string>, b: seq<string>)
    requires SlashSeparated(toks)
    requires ValidCaptures(toks, a) && ValidCaptures(toks, b)
    requires Fill(toks, a) == Fill(toks, b)
    ensures a == b
    decreases |toks|
  {
    if toks != [] {
      var rest := toks[1..];
      assert SlashSeparated(rest) by {
        forall k | 0 <= k < |rest| && rest[k].Slot? ensures k + 1 == |rest| || rest[k + 1] == Lit('/') {
          assert rest[k] == toks[k + 1];
        }
      }
      match toks[0]
      case Lit(c) =>
        assert Fill(rest, a) == Fill(toks, a)[1..];
        FillInjective(rest, a, b);
      case Slot(_, _) =>
        var fa := Fill(rest, a[1..]);
        var fb := Fill(rest, b[1..]);
        assert ValidCaptures(rest, a[1..]) by {
          forall k | 0 <= k < |a[1..]| ensures IsSegment(a[1..][k]) { assert a[1..][k] == a[k + 1]; }
        }
        assert ValidCaptures(rest, b[1..]) by {
          forall k | 0 <= k < |b[1..]| ensures IsSegment(b[1..][k]) { assert b[1..][k] == b[k + 1]; }
        }
        if rest != [] {
          assert rest[0] == Lit('/');
        }
        SegmentBoundary(a[0], fa, b[0], fb);
        FillInjective(rest, a[1..], b[1..]);
        assert a == [a[0]] + a[1..] && b == [b[0]] + b[1..];
    }
  }

  /**
   * For a template whose placeholders are each followed by '/' or end it,
   * matching the path built by substituting slash-free segments gives back
   * exactly those segments (for paths without a newline, which the URL
   * parser never leaves in a path).
   */
  lemma SubstitutedPathMatches(c: CompiledPath, caps: seq<string>)
    requires SlashSeparated(c.tokens)
    requires ValidCaptures(c.tokens, caps)
    requires '\n' !in Fill(c.tokens, caps)
    ensures MatchPath(c, Fill(c.tokens, caps)) == Some(caps)
  {
    var s := Fill(c.tokens, caps);
    assert Describes(c.tokens, caps, s);
    assert s[0..] == s;
    MatchComplete(c.tokens, caps, s, 0);
    MatchAnchored(c, s);
    var got := MatchPath(c, s).value;
    assert Fill(c.tokens, got) == s;
    FillInjective(c.tokens, got, caps);
  }

  // ---------------------------------------------------------------------------
  // Literal prefixes and a final placeholder

  /** The first literal token of a run checks one character. */
  lemma LiteralStep(p: string, rest: seq<Token>, s: string, i: nat)
    requires i <= |s| && p != []
    ensures MatchAt(Literals(p) + rest, s, i) ==
      if i < |s| && s[i] == p[0] then MatchAt(Literals(p[1..]) + rest, s, i + 1) else None
  {
    var toks := Literals(p) + rest;
    assert toks[0] == Lit(p[0]);
    assert toks[1..] == Literals(p[1..]) + rest;
  }

  /** A prefix equals p exactly when its first character is p's and the remainder is the rest of p. */
  lemma PrefixSplit(p: string, s: string, i: nat)
    requires p != [] && i < |s| && i + |p| <= |s|
    ensures (s[i..i + |p|] == p) == (s[i] == p[0] && s[i + 1..i + |p|] == p[1..])
  {
    assert s[i..i + |p|] == [s[i]] + s[i + 1..i + |p|];
    assert p == [p[0]] + p[1..];
  }

  /** A run of literal tokens matches exactly its own characters, then the rest of the pattern goes on. */
  lemma {:induction false} LiteralsMatch(p: string, rest: seq<Token>, s: string, i: nat)
    requires i <= |s|
    ensures MatchAt(Literals(p) + rest, s, i) ==
      if i + |p| <= |s| && s[i..i + |p|] == p then MatchAt(rest, s, i + |p|) else None
    decreases |p|
  {
    if p == [] {
      assert Literals(p) + rest == rest;
      assert s[i..i] == p;
    } else {
      LiteralStep(p, rest, s, i);
      if i < |s| && s[i] == p[0] {
        LiteralsMatch(p[1..], rest, s, i + 1);
        if i + |p| <= |s| {
          PrefixSplit(p, s, i);
        }
      } else if i + |p| <= |s| {
        PrefixSplit(p, s, i);
      }
    }
  }

  /** A final placeholder captures the whole non-empty slash-free remainder. */
  lemma FinalSlotCaptures(slot: Token, s: string, i: nat)
    requires slot.Slot?
    requires i < |s| && '/' !in s[i..]
    ensures MatchAt([slot], s, i) == Some([s[i..]])
  {
    assert forall m :: i <= m < |s| ==> s[m] != '/' by {
      forall m | i <= m < |s| ensures s[m] != '/' { assert s[m] == s[i..][m - i]; }
    }
    assert RunEnd(s, i) == |s|;
    assert [slot][1..] == [];
    assert MatchAt([], s, |s|) == Some([]);
    assert s[i..|s|] == s[i..];
    assert [s[i..]] + [] == [s[i..]];
  }
}
