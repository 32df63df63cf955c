/** The regular-expression rewrites of the PDF text cleaner, one function per
    `re.sub` call, each written as the left-to-right scan that Python's `re`
    performs: at the current position try the pattern; on a match emit the
    replacement and resume after the match, otherwise emit one character and
    advance by one. Matches therefore never overlap. The scans carry the
    position `i` explicitly, as the regular-expression engine does. */
module Rewrites {
  import opened Strings

  // ---------------------------------------------------------------------
  // re.sub(r'([A-Za-z0-9]) ([A-Za-z0-9])', r'\1\2', text)

  /** A letter or digit, one space, a letter or digit, starting at `i`. */
  predicate CollapsibleAt(s: string, i: int) {
    0 <= i && i + 2 < |s| && IsAsciiAlnum(s[i]) && s[i + 1] == ' ' && IsAsciiAlnum(s[i + 2])
  }

  ghost predicate CollapsibleFrom(s: string, i: int) {
    exists j :: i <= j && CollapsibleAt(s, j)
  }

  function CollapseFrom(s: string, i: nat): (r: string)
    requires i <= |s|
    decreases |s| - i
  {
    if CollapsibleAt(s, i) then [s[i], s[i + 2]] + CollapseFrom(s, i + 3)
    else if i == |s| then []
    else [s[i]] + CollapseFrom(s, i + 1)
  }

  /** One application of the collapsing rewrite to the whole text. */
  function CollapsePass(s: string): string {
    CollapseFrom(s, 0)
  }

  /** The scan never lengthens the text, and it shortens it exactly when a
      collapsible triple lies ahead of the scan position. */
  lemma {:induction false} CollapseFromLength(s: string, i: nat)
    requires i <= |s|
    ensures |CollapseFrom(s, i)| <= |s| - i
    ensures |CollapseFrom(s, i)| < |s| - i <==> CollapsibleFrom(s, i)
    ensures !CollapsibleFrom(s, i) ==> CollapseFrom(s, i) == s[i..]
    decreases |s| - i
  {
    if CollapsibleAt(s, i) {
      CollapseFromLength(s, i + 3);
    } else if i < |s| {
      CollapseFromLength(s, i + 1);
      if CollapsibleFrom(s, i) {
        var j :| i <= j && CollapsibleAt(s, j);
        assert j != i;
        assert CollapsibleFrom(s, i + 1);
      }
      if CollapsibleFrom(s, i + 1) {
        var j :| i + 1 <= j && CollapsibleAt(s, j);
        assert CollapsibleFrom(s, i);
      }
      if !CollapsibleFrom(s, i) {
        assert s[i..] == [s[i]] + s[i + 1..];
      }
    } else {
      assert !CollapsibleFrom(s, i);
    }
  }

  /** A pass changes the text exactly when the text holds a letter-or-digit,
      space, letter-or-digit triple; otherwise it returns the text as it is.
      It never makes the text longer. */
  lemma CollapsePassChanges(s: string)
    ensures |CollapsePass(s)| <= |s|
    ensures CollapsePass(s) == s <==> !CollapsibleFrom(s, 0)
  {
    CollapseFromLength(s, 0);
  }

  /** The characters of `s` other than `c`, in order. */
  function Without(s: string, c: char): (r: string)
    ensures |r| <= |s|
  {
    if s == [] then [] else (if s[0] == c then [] else [s[0]]) + Without(s[1..], c)
  }

  lemma {:induction false} WithoutAppend(a: string, b: string, c: char)
    ensures Without(a + b, c) == Without(a, c) + Without(b, c)
  {
    if a == [] {
      assert a + b == b;
    } else {
      assert (a + b)[0] == a[0] && (a + b)[1..] == a[1..] + b;
      WithoutAppend(a[1..], b, c);
    }
  }

  /** `a` is `b` with some copies of `c` deleted: the characters of `a` are
      those of `b`, in order, less some that equal `c`. */
  predicate DeletesOnly(b: string, a: string, c: char)
    decreases |b|
  {
    if b == [] then a == []
    else
      || (a != [] && a[0] == b[0] && DeletesOnly(b[1..], a[1..], c))
      || (b[0] == c && DeletesOnly(b[1..], a, c))
  }

  lemma KeepHead(x: char, b: string, a: string, c: char)
    requires DeletesOnly(b, a, c)
    ensures DeletesOnly([x] + b, [x] + a, c)
  {
    assert ([x] + b)[1..] == b && ([x] + a)[1..] == a;
  }

  lemma DropHead(b: string, a: string, c: char)
    requires DeletesOnly(b, a, c)
    ensures DeletesOnly([c] + b, a, c)
  {
    assert ([c] + b)[1..] == b;
  }

  /** Leaving out a whitespace character first changes nothing visible. */
  lemma {:induction false} VisibleWithout(x: string, c: char)
    requires IsSpace(c)
    ensures Visible(Without(x, c)) == Visible(x)
  {
    if x != [] {
      VisibleWithout(x[1..], c);
      if x[0] != c {
        assert ([x[0]] + Without(x[1..], c))[1..] == Without(x[1..], c);
      } else {
        assert Without(x, c) == Without(x[1..], c);
      }
    }
  }

  /** Dropping the middle space of a triple, and the same on the rest. */
  lemma DropMiddleSpace(a: char, b: char, c: char, x: string, y: string)
    requires b == ' ' && Without(x, ' ') == Without(y, ' ')
    ensures Without([a, c] + x, ' ') == Without([a, b, c] + y, ' ')
  {
    WithoutAppend([a, c], x, ' ');
    WithoutAppend([a, b, c], y, ' ');
    assert [a, b, c][1..] == [b, c] && [b, c][1..] == [c] && [a, c][1..] == [c];
  }

  /** Keeping one character in front of both sides. */
  lemma KeepFront(a: char, x: string, y: string, c: char)
    requires Without(x, c) == Without(y, c)
    ensures Without([a] + x, c) == Without([a] + y, c)
  {
    assert ([a] + x)[1..] == x && ([a] + y)[1..] == y;
  }

  /** The pass deletes nothing but spaces: every other character survives, in
      order. */
  lemma {:induction false} CollapseFromDeletesOnlySpaces(s: string, i: nat)
    requires i <= |s|
    ensures Without(CollapseFrom(s, i), ' ') == Without(s[i..], ' ')
    decreases |s| - i
  {
    if CollapsibleAt(s, i) {
      CollapseFromDeletesOnlySpaces(s, i + 3);
      assert s[i..] == [s[i], s[i + 1], s[i + 2]] + s[i + 3..];
      DropMiddleSpace(s[i], s[i + 1], s[i + 2], CollapseFrom(s, i + 3), s[i + 3..]);
    } else if i < |s| {
      CollapseFromDeletesOnlySpaces(s, i + 1);
      assert s[i..] == [s[i]] + s[i + 1..];
      KeepFront(s[i], CollapseFrom(s, i + 1), s[i + 1..], ' ');
    }
  }

  /** A space with an ASCII letter or digit on each side: the only character
      the collapsing rewrite may delete. */
  predicate FlankedSpace(s: string, j: int) {
    0 < j && CollapsibleAt(s, j - 1)
  }

  /** The characters of `s` from `j` on, leaving out the flanked spaces. */
  function UnflankedFrom(s: string, j: nat): string
    requires j <= |s|
    decreases |s| - j
  {
    if j == |s| then [] else (if FlankedSpace(s, j) then [] else [s[j]]) + UnflankedFrom(s, j + 1)
  }

  function Unflanked(s: string): string {
    UnflankedFrom(s, 0)
  }

  /** The scan from `i` starts with `s[i]`. */
  lemma CollapseFromHead(s: string, i: nat)
    requires i < |s|
    ensures CollapseFrom(s, i) != [] && CollapseFrom(s, i)[0] == s[i]
  {
  }

  lemma UnflankedKeep(s: string, j: nat)
    requires j < |s| && !FlankedSpace(s, j)
    ensures UnflankedFrom(s, j) == [s[j]] + UnflankedFrom(s, j + 1)
  {
  }

  lemma UnflankedDrop(s: string, j: nat)
    requires j < |s| && FlankedSpace(s, j)
    ensures UnflankedFrom(s, j) == UnflankedFrom(s, j + 1)
  {
  }

  /** A collapsed triple: of `s[i], ' ', s[i + 2]` only the flanked space
      goes, and `s[i], s[i + 2]` written at `k` are not spaces. */
  lemma CollapsedTripleUnflanked(s: string, i: nat, t: string, k: nat)
    requires CollapsibleAt(s, i) && k + 2 <= |t| && t[k] == s[i] && t[k + 1] == s[i + 2]
    requires UnflankedFrom(t, k + 2) == UnflankedFrom(s, i + 3)
    ensures UnflankedFrom(t, k) == UnflankedFrom(s, i)
  {
    assert t[k] != ' ' && t[k + 1] != ' ' && s[i] != ' ' && s[i + 2] != ' ';
    UnflankedKeep(t, k);
    UnflankedKeep(t, k + 1);
    UnflankedKeep(s, i);
    UnflankedDrop(s, i + 1);
    UnflankedKeep(s, i + 2);
  }

  /** A kept character with the same neighbours in `t` as in `s`. */
  lemma KeptCharUnflanked(s: string, i: nat, t: string, k: nat)
    requires i < |s| && k < |t| && t[k] == s[i]
    requires (i == 0 && k == 0) || (0 < i && 0 < k && t[k - 1] == s[i - 1])
    requires (i + 1 == |s| && k + 1 == |t|) || (i + 1 < |s| && k + 1 < |t| && t[k + 1] == s[i + 1])
    requires UnflankedFrom(t, k + 1) == UnflankedFrom(s, i + 1)
    ensures UnflankedFrom(t, k) == UnflankedFrom(s, i)
  {
    assert FlankedSpace(t, k) == FlankedSpace(s, i);
  }

  /** What the scan has written so far ends with the character before the
      scan position, so every character it keeps has the same neighbours in
      the output as in the input, and every character it drops is a flanked
      space. */
  lemma {:induction false} CollapseFromUnflanked(s: string, i: nat, p: string)
    requires i <= |s|
    requires (i == 0 && p == []) || (0 < i && p != [] && p[|p| - 1] == s[i - 1])
    ensures UnflankedFrom(p + CollapseFrom(s, i), |p|) == UnflankedFrom(s, i)
    decreases |s| - i
  {
    if CollapsibleAt(s, i) {
      CollapseFromUnflanked(s, i + 3, p + [s[i], s[i + 2]]);
      CollapsedStepUnflanked(s, i, p);
    } else if i < |s| {
      CollapseFromUnflanked(s, i + 1, p + [s[i]]);
      KeptStepUnflanked(s, i, p);
    }
  }

  lemma CollapsedStepUnflanked(s: string, i: nat, p: string)
    requires CollapsibleAt(s, i)
    requires UnflankedFrom(p + [s[i], s[i + 2]] + CollapseFrom(s, i + 3), |p| + 2) == UnflankedFrom(s, i + 3)
    ensures UnflankedFrom(p + CollapseFrom(s, i), |p|) == UnflankedFrom(s, i)
  {
    var rest := CollapseFrom(s, i + 3);
    assert CollapseFrom(s, i) == [s[i], s[i + 2]] + rest;
    AppendAssoc(p, [s[i], s[i + 2]], rest);
    CollapsedTripleUnflanked(s, i, p + [s[i], s[i + 2]] + rest, |p|);
  }

  lemma KeptStepUnflanked(s: string, i: nat, p: string)
    requires i < |s| && !CollapsibleAt(s, i)
    requires (i == 0 && p == []) || (0 < i && p != [] && p[|p| - 1] == s[i - 1])
    requires UnflankedFrom(p + [s[i]] + CollapseFrom(s, i + 1), |p| + 1) == UnflankedFrom(s, i + 1)
    ensures UnflankedFrom(p + CollapseFrom(s, i), |p|) == UnflankedFrom(s, i)
  {
    var rest := CollapseFrom(s, i + 1);
    assert CollapseFrom(s, i) == [s[i]] + rest;
    AppendAssoc(p, [s[i]], rest);
    var t := p + [s[i]] + rest;
    if i + 1 < |s| {
      CollapseFromHead(s, i + 1);
      assert t[|p| + 1] == rest[0];
    }
    assert t[|p|] == s[i];
    KeptCharUnflanked(s, i, t, |p|);
  }

  /** `t` is `s[j..]` with some flanked spaces of `s` deleted, and nothing
      else changed. */
  predicate DropsFlankedFrom(s: string, j: nat, t: string)
    requires j <= |s|
    decreases |s| - j
  {
    if j == |s| then t == []
    else
      || (t != [] && t[0] == s[j] && DropsFlankedFrom(s, j + 1, t[1..]))
      || (FlankedSpace(s, j) && DropsFlankedFrom(s, j + 1, t))
  }

  /** The scan from `i` keeps every character from `i` on except the middle
      spaces of the triples it collapses, which are flanked. */
  lemma {:induction false} CollapseFromDropsFlanked(s: string, i: nat)
    requires i <= |s|
    ensures DropsFlankedFrom(s, i, CollapseFrom(s, i))
    decreases |s| - i
  {
    if CollapsibleAt(s, i) {
      CollapseFromDropsFlanked(s, i + 3);
      CollapsedDropsFlanked(s, i);
    } else if i < |s| {
      CollapseFromDropsFlanked(s, i + 1);
      DropsKeep(s, i, s[i], CollapseFrom(s, i + 1));
    }
  }

  lemma CollapsedDropsFlanked(s: string, i: nat)
    requires CollapsibleAt(s, i) && DropsFlankedFrom(s, i + 3, CollapseFrom(s, i + 3))
    ensures DropsFlankedFrom(s, i, CollapseFrom(s, i))
  {
    var rest := CollapseFrom(s, i + 3);
    var u := [s[i + 2]] + rest;
    DropsKeep(s, i + 2, s[i + 2], rest);
    DropsSkip(s, i + 1, u);
    DropsKeep(s, i, s[i], u);
    assert CollapseFrom(s, i) == [s[i]] + u;
  }

  lemma DropsKeep(s: string, j: nat, x: char, t: string)
    requires j < |s| && x == s[j] && DropsFlankedFrom(s, j + 1, t)
    ensures DropsFlankedFrom(s, j, [x] + t)
  {
    assert ([x] + t)[1..] == t;
  }

  lemma DropsSkip(s: string, j: nat, t: string)
    requires j < |s| && FlankedSpace(s, j) && DropsFlankedFrom(s, j + 1, t)
    ensures DropsFlankedFrom(s, j, t)
  {
  }

  /** A pass deletes plain spaces only, and only spaces with an ASCII letter
      or digit on each side: every other character survives, in order. */
  lemma CollapsePassDeletesOnlySpaces(s: string)
    ensures DropsFlankedFrom(s, 0, CollapsePass(s))
    ensures Without(CollapsePass(s), ' ') == Without(s, ' ')
    ensures Unflanked(CollapsePass(s)) == Unflanked(s)
    ensures Visible(CollapsePass(s)) == Visible(s)
  {
    CollapseFromDropsFlanked(s, 0);
    CollapseFromDeletesOnlySpaces(s, 0);
    CollapseFromUnflanked(s, 0, []);
    assert [] + CollapseFrom(s, 0) == CollapseFrom(s, 0);
    VisibleWithout(CollapsePass(s), ' ');
    VisibleWithout(s, ' ');
  }

  /** Matches do not overlap and are taken left to right: one pass joins only
      the first pair of "a b c", a second pass joins the rest. */
  lemma CollapseIsLeftmostNonOverlapping()
    ensures CollapsePass("a b c") == "ab c"
    ensures CollapsePass(CollapsePass("a b c")) == "abc"
  {
  }

  // ---------------------------------------------------------------------
  // Adjacent character pairs that the rewrites look for

  /** The two-character shapes the cleaner separates with a space, and the
      double space it squeezes. */
  datatype PairPattern =
    | DotUpper      // '.' then an upper-case letter:   re.sub(r'\.([A-Z])', r'. \1')
    | CommaLetter   // ',' then a letter:               re.sub(r',([A-Za-z])', r', \1')
    | LetterParen   // a letter then '(':               re.sub(r'([A-Za-z])\(', r'\1 (')
    | ParenLetter   // ')' then a letter:               re.sub(r'\)([A-Za-z])', r') \1')
    | LowerUpper    // lower-case then upper-case:      re.sub(r'([a-z])([A-Z])', r'\1 \2')
    | DoubleSpace   // two spaces

  predicate Matches(p: PairPattern, a: char, b: char) {
    match p
    case DotUpper => a == '.' && IsAsciiUpper(b)
    case CommaLetter => a == ',' && IsAsciiLetter(b)
    case LetterParen => IsAsciiLetter(a) && b == '('
    case ParenLetter => a == ')' && IsAsciiLetter(b)
    case LowerUpper => IsAsciiLower(a) && IsAsciiUpper(b)
    case DoubleSpace => a == ' ' && b == ' '
  }

  /** The patterns rewritten by inserting a space between the two characters. */
  type SplitRule = p: PairPattern | p != DoubleSpace witness DotUpper

  /** No two adjacent characters of `s` form the pattern `p`. */
  predicate FreeOf(s: string, p: PairPattern) {
    forall i :: 0 <= i < |s| - 1 ==> !Matches(p, s[i], s[i + 1])
  }

  lemma {:induction false} FreeOfAppend(a: string, b: string, p: PairPattern)
    requires FreeOf(a, p) && FreeOf(b, p)
    requires a != [] && b != [] ==> !Matches(p, a[|a| - 1], b[0])
    ensures FreeOf(a + b, p)
  {
    var s := a + b;
    forall i | 0 <= i < |s| - 1
      ensures !Matches(p, s[i], s[i + 1])
    {
      if i + 1 < |a| {
        assert s[i] == a[i] && s[i + 1] == a[i + 1];
      } else if i >= |a| {
        assert s[i] == b[i - |a|] && s[i + 1] == b[i + 1 - |a|];
      }
    }
  }

  lemma FreeOfSlice(s: string, lo: nat, hi: nat, p: PairPattern)
    requires lo <= hi <= |s| && FreeOf(s, p)
    ensures FreeOf(s[lo..hi], p)
  {
    var t := s[lo..hi];
    forall i | 0 <= i < |t| - 1
      ensures !Matches(p, t[i], t[i + 1])
    {
      assert t[i] == s[lo + i] && t[i + 1] == s[lo + i + 1];
    }
  }

  // ---------------------------------------------------------------------
  // The five space-inserting rewrites

  function SplitFrom(s: string, i: nat, r: SplitRule): (t: string)
    requires i <= |s|
    ensures |t| >= |s| - i
    ensures i < |s| ==> t[0] == s[i]
    decreases |s| - i
  {
    if i + 1 < |s| && Matches(r, s[i], s[i + 1]) then [s[i], ' ', s[i + 1]] + SplitFrom(s, i + 2, r)
    else if i == |s| then []
    else [s[i]] + SplitFrom(s, i + 1, r)
  }

  /** One application of the space-inserting rewrite for `r`. */
  function SplitPass(s: string, r: SplitRule): string {
    SplitFrom(s, 0, r)
  }

  /** The second character of a match can never begin another match, which is
      why a single left-to-right pass catches every occurrence. */
  lemma MatchesChainFree(r: SplitRule, a: char, b: char, c: char)
    requires Matches(r, a, b)
    ensures !Matches(r, b, c)
  {
  }

  /** After the rewrite for `r`, no occurrence of `r` is left. */
  lemma {:induction false} SplitFromRemoves(s: string, i: nat, r: SplitRule)
    requires i <= |s|
    ensures FreeOf(SplitFrom(s, i, r), r)
    decreases |s| - i
  {
    if i + 1 < |s| && Matches(r, s[i], s[i + 1]) {
      var rest := SplitFrom(s, i + 2, r);
      SplitFromRemoves(s, i + 2, r);
      FreeOfAppend([s[i], ' '], [s[i + 1]], r);
      if i + 2 < |s| {
        MatchesChainFree(r, s[i], s[i + 1], s[i + 2]);
      }
      FreeOfAppend([s[i], ' ', s[i + 1]], rest, r);
    } else if i < |s| {
      SplitFromRemoves(s, i + 1, r);
      FreeOfAppend([s[i]], SplitFrom(s, i + 1, r), r);
    }
  }

  /** The rewrite for `r` creates no occurrence of any other space-free
      pattern `p`: the only new neighbours are the inserted spaces. */
  lemma {:induction false} SplitFromKeeps(s: string, i: nat, r: SplitRule, p: SplitRule)
    requires i <= |s| && FreeOf(s, p)
    ensures FreeOf(SplitFrom(s, i, r), p)
    decreases |s| - i
  {
    if i + 1 < |s| && Matches(r, s[i], s[i + 1]) {
      var rest := SplitFrom(s, i + 2, r);
      SplitFromKeeps(s, i + 2, r, p);
      FreeOfAppend([s[i], ' '], [s[i + 1]], p);
      FreeOfAppend([s[i], ' ', s[i + 1]], rest, p);
    } else if i < |s| {
      SplitFromKeeps(s, i + 1, r, p);
      FreeOfAppend([s[i]], SplitFrom(s, i + 1, r), p);
    }
  }

  /** The scan leaves the text as it is exactly when no occurrence of `r` lies
      ahead of the scan position; otherwise it makes the text longer. */
  lemma {:induction false} SplitFromUnchanged(s: string, i: nat, r: SplitRule)
    requires i <= |s|
    ensures SplitFrom(s, i, r) == s[i..] <==> FreeOf(s[i..], r)
    ensures |SplitFrom(s, i, r)| == |s| - i <==> FreeOf(s[i..], r)
    decreases |s| - i
  {
    if i + 1 < |s| && Matches(r, s[i], s[i + 1]) {
      assert s[i..][0] == s[i] && s[i..][1] == s[i + 1];
      assert !FreeOf(s[i..], r);
    } else if i < |s| {
      SplitFromUnchanged(s, i + 1, r);
      assert s[i..] == [s[i]] + s[i + 1..];
      if FreeOf(s[i..], r) {
        FreeOfSlice(s[i..], 1, |s| - i, r);
        assert s[i..][1..|s| - i] == s[i + 1..];
      }
      if FreeOf(s[i + 1..], r) {
        FreeOfAppend([s[i]], s[i + 1..], r);
      }
    }
  }

  /** A pass for `r` changes the text exactly when the text contains `r`. */
  lemma SplitPassChanges(s: string, r: SplitRule)
    ensures SplitPass(s, r) == s <==> FreeOf(s, r)
    ensures |SplitPass(s, r)| >= |s|
  {
    SplitFromUnchanged(s, 0, r);
    assert s[0..] == s;
  }

  /** The rewrite only inserts plain spaces: with the spaces left out, the
      text is unchanged. */
  lemma {:induction false} SplitFromInsertsSpaces(s: string, i: nat, r: SplitRule)
    requires i <= |s|
    ensures Without(SplitFrom(s, i, r), ' ') == Without(s[i..], ' ')
    decreases |s| - i
  {
    if i + 1 < |s| && Matches(r, s[i], s[i + 1]) {
      SplitFromInsertsSpaces(s, i + 2, r);
      assert s[i..] == [s[i], s[i + 1]] + s[i + 2..];
      SpaceBetween(s[i], s[i + 1], SplitFrom(s, i + 2, r), s[i + 2..]);
    } else if i < |s| {
      SplitFromInsertsSpaces(s, i + 1, r);
      assert s[i..] == [s[i]] + s[i + 1..];
      KeepFront(s[i], SplitFrom(s, i + 1, r), s[i + 1..], ' ');
    }
  }

  /** The scan from `i` only inserts: deleting some of the plain spaces of its
      output gives back the rest of the input. */
  lemma {:induction false} SplitFromOnlyInserts(s: string, i: nat, r: SplitRule)
    requires i <= |s|
    ensures DeletesOnly(SplitFrom(s, i, r), s[i..], ' ')
    decreases |s| - i
  {
    if i + 1 < |s| && Matches(r, s[i], s[i + 1]) {
      SplitFromOnlyInserts(s, i + 2, r);
      var rest := SplitFrom(s, i + 2, r);
      KeepHead(s[i + 1], rest, s[i + 2..], ' ');
      DropHead([s[i + 1]] + rest, [s[i + 1]] + s[i + 2..], ' ');
      KeepHead(s[i], [' '] + ([s[i + 1]] + rest), [s[i + 1]] + s[i + 2..], ' ');
      assert SplitFrom(s, i, r) == [s[i]] + ([' '] + ([s[i + 1]] + rest));
      assert s[i..] == [s[i]] + ([s[i + 1]] + s[i + 2..]);
    } else if i < |s| {
      SplitFromOnlyInserts(s, i + 1, r);
      KeepHead(s[i], SplitFrom(s, i + 1, r), s[i + 1..], ' ');
      assert s[i..] == [s[i]] + s[i + 1..];
    } else {
      assert s[i..] == [];
    }
  }

  /** A space put between two characters, and the same on the rest. */
  lemma SpaceBetween(a: char, b: char, x: string, y: string)
    requires Without(x, ' ') == Without(y, ' ')
    ensures Without([a, ' ', b] + x, ' ') == Without([a, b] + y, ' ')
  {
    WithoutAppend([a, ' ', b], x, ' ');
    WithoutAppend([a, b], y, ' ');
    assert [a, ' ', b][1..] == [' ', b] && [' ', b][1..] == [b] && [a, b][1..] == [b];
  }

  lemma SplitPassInsertsSpaces(s: string, r: SplitRule)
    ensures DeletesOnly(SplitPass(s, r), s, ' ')
    ensures Without(SplitPass(s, r), ' ') == Without(s, ' ')
    ensures Visible(SplitPass(s, r)) == Visible(s)
  {
    SplitFromInsertsSpaces(s, 0, r);
    SplitFromOnlyInserts(s, 0, r);
    assert s[0..] == s;
    VisibleWithout(SplitPass(s, r), ' ');
    VisibleWithout(s, ' ');
  }

  // ---------------------------------------------------------------------
  // re.sub(r' {2,}', ' ', text) and re.sub(r'\n{3,}', '\n\n', text)

  /** Length of the run of `c` that starts at `i`. */
  function RunFrom(s: string, i: nat, c: char): (n: nat)
    requires i <= |s|
    ensures i + n <= |s|
    ensures forall j :: i <= j < i + n ==> s[j] == c
    ensures i + n < |s| ==> s[i + n] != c
    decreases |s| - i
  {
    if i < |s| && s[i] == c then 1 + RunFrom(s, i + 1, c) else 0
  }

  function Repeat(c: char, k: nat): (r: string)
    ensures |r| == k && forall j :: 0 <= j < k ==> r[j] == c
  {
    seq(k, _ => c)
  }

  /** The rewrite of `c{n,}` into `n - 1` copies of `c`: a greedy match takes
      the whole run, which is replaced, and the scan resumes after it. */
  function SqueezeFrom(s: string, i: nat, c: char, n: nat): (t: string)
    requires i <= |s| && n >= 2
    ensures |t| <= |s| - i
    ensures i < |s| ==> |t| > 0 && t[0] == s[i]
    decreases |s| - i
  {
    if i == |s| then []
    else if RunFrom(s, i, c) >= n then Repeat(c, n - 1) + SqueezeFrom(s, i + RunFrom(s, i, c), c, n)
    else [s[i]] + SqueezeFrom(s, i + 1, c, n)
  }

  function Squeeze(s: string, c: char, n: nat): string
    requires n >= 2
  {
    SqueezeFrom(s, 0, c, n)
  }

  /** No run of `c` in `s` reaches length `n`. */
  predicate RunsBelow(s: string, c: char, n: nat) {
    forall j :: 0 <= j < |s| ==> RunFrom(s, j, c) < n
  }

  lemma {:induction false} RunFromShift(a: string, b: string, j: nat, c: char)
    requires |a| <= j <= |a| + |b|
    ensures RunFrom(a + b, j, c) == RunFrom(b, j - |a|, c)
    decreases |a| + |b| - j
  {
    if j < |a| + |b| {
      assert (a + b)[j] == b[j - |a|];
      RunFromShift(a, b, j + 1, c);
    }
  }

  lemma {:induction false} RunFromRepeat(k: nat, b: string, j: nat, c: char)
    requires j <= k
    ensures RunFrom(Repeat(c, k) + b, j, c) == k - j + RunFrom(b, 0, c)
    decreases k - j
  {
    if j < k {
      RunFromRepeat(k, b, j + 1, c);
    } else {
      RunFromShift(Repeat(c, k), b, j, c);
    }
  }

  /** How long the leading run of `c` is after squeezing. */
  lemma {:induction false} SqueezeFromLeadRun(s: string, i: nat, c: char, n: nat)
    requires i <= |s| && n >= 2
    ensures RunFrom(SqueezeFrom(s, i, c, n), 0, c) == if RunFrom(s, i, c) >= n then n - 1 else RunFrom(s, i, c)
    decreases |s| - i
  {
    var m := RunFrom(s, i, c);
    var t := SqueezeFrom(s, i, c, n);
    if i == |s| {
    } else if m >= n {
      var rest := SqueezeFrom(s, i + m, c, n);
      RunFromRepeat(n - 1, rest, 0, c);
      assert i + m < |s| ==> rest[0] == s[i + m];
    } else {
      var rest := SqueezeFrom(s, i + 1, c, n);
      if s[i] == c {
        SqueezeFromLeadRun(s, i + 1, c, n);
        RunFromShift([s[i]], rest, 1, c);
      }
    }
  }

  /** After squeezing, no run of `c` reaches length `n`. */
  lemma {:induction false} SqueezeFromRunsBelow(s: string, i: nat, c: char, n: nat)
    requires i <= |s| && n >= 2
    ensures RunsBelow(SqueezeFrom(s, i, c, n), c, n)
    decreases |s| - i
  {
    var m := RunFrom(s, i, c);
    if i == |s| {
    } else if m >= n {
      SqueezeFromRunsBelow(s, i + m, c, n);
      RunsBelowAfterRun(s, i, c, n);
    } else {
      SqueezeFromRunsBelow(s, i + 1, c, n);
      RunsBelowAfterChar(s, i, c, n);
    }
  }

  lemma RunsBelowAfterRun(s: string, i: nat, c: char, n: nat)
    requires i < |s| && n >= 2 && RunFrom(s, i, c) >= n
    requires RunsBelow(SqueezeFrom(s, i + RunFrom(s, i, c), c, n), c, n)
    ensures RunsBelow(Repeat(c, n - 1) + SqueezeFrom(s, i + RunFrom(s, i, c), c, n), c, n)
  {
    var m := RunFrom(s, i, c);
    var x, rest := Repeat(c, n - 1), SqueezeFrom(s, i + m, c, n);
    var t := x + rest;
    assert i + m < |s| ==> rest[0] == s[i + m];
    assert RunFrom(rest, 0, c) == 0;
    forall j | 0 <= j < |t|
      ensures RunFrom(t, j, c) < n
    {
      if j < n - 1 {
        RunFromRepeat(n - 1, rest, j, c);
      } else {
        RunFromShift(x, rest, j, c);
      }
    }
  }

  lemma RunsBelowAfterChar(s: string, i: nat, c: char, n: nat)
    requires i < |s| && n >= 2 && RunFrom(s, i, c) < n
    requires RunsBelow(SqueezeFrom(s, i + 1, c, n), c, n)
    ensures RunsBelow([s[i]] + SqueezeFrom(s, i + 1, c, n), c, n)
  {
    var rest := SqueezeFrom(s, i + 1, c, n);
    var t := [s[i]] + rest;
    forall j | 0 <= j < |t|
      ensures RunFrom(t, j, c) < n
    {
      if j == 0 {
        if s[i] == c {
          SqueezeFromLeadRun(s, i + 1, c, n);
          RunFromShift([s[i]], rest, 1, c);
        }
      } else {
        RunFromShift([s[i]], rest, j, c);
      }
    }
  }

  /** Squeezing leaves the text as it is exactly when no run of `c` of length
      `n` or more lies ahead of the scan; otherwise the text gets shorter. */
  lemma {:induction false} SqueezeFromUnchanged(s: string, i: nat, c: char, n: nat)
    requires i <= |s| && n >= 2
    ensures (forall j :: i <= j < |s| ==> RunFrom(s, j, c) < n) ==> SqueezeFrom(s, i, c, n) == s[i..]
    ensures (exists j :: i <= j < |s| && RunFrom(s, j, c) >= n) ==> |SqueezeFrom(s, i, c, n)| < |s| - i
    decreases |s| - i
  {
    var m := RunFrom(s, i, c);
    if i < |s| && m < n {
      SqueezeFromUnchanged(s, i + 1, c, n);
      assert s[i..] == [s[i]] + s[i + 1..];
      if exists j :: i <= j < |s| && RunFrom(s, j, c) >= n {
        var j :| i <= j < |s| && RunFrom(s, j, c) >= n;
        assert j != i;
      }
    }
  }

  /** A squeeze changes the text exactly when it contains a run of `n` or
      more `c`. */
  lemma SqueezeChanges(s: string, c: char, n: nat)
    requires n >= 2
    ensures Squeeze(s, c, n) == s <==> RunsBelow(s, c, n)
  {
    SqueezeFromUnchanged(s, 0, c, n);
    assert s[0..] == s;
    if !RunsBelow(s, c, n) {
      var j :| 0 <= j < |s| && RunFrom(s, j, c) >= n;
    }
  }

  /** Squeezing creates no new adjacent pair: every pair of neighbours in the
      result already stood next to each other in the input. */
  lemma {:induction false} SqueezeFromKeeps(s: string, i: nat, c: char, n: nat, p: PairPattern)
    requires i <= |s| && n >= 2 && FreeOf(s, p)
    ensures FreeOf(SqueezeFrom(s, i, c, n), p)
    decreases |s| - i
  {
    var m := RunFrom(s, i, c);
    if i == |s| {
    } else if m >= n {
      var x, rest := Repeat(c, n - 1), SqueezeFrom(s, i + m, c, n);
      SqueezeFromKeeps(s, i + m, c, n, p);
      assert s[i] == c && s[i + 1] == c;
      assert !Matches(p, c, c);
      assert FreeOf(x, p);
      assert i + m < |s| ==> rest[0] == s[i + m] && s[i + m - 1] == c;
      FreeOfAppend(x, rest, p);
    } else {
      SqueezeFromKeeps(s, i + 1, c, n, p);
      FreeOfAppend([s[i]], SqueezeFrom(s, i + 1, c, n), p);
    }
  }

  /** A string made only of `c` has nothing left once `c` is left out. */
  lemma {:induction false} WithoutAll(x: string, c: char)
    requires forall j :: 0 <= j < |x| ==> x[j] == c
    ensures Without(x, c) == []
  {
    if x != [] {
      WithoutAll(x[1..], c);
    }
  }

  lemma SqueezeRunWithout(s: string, i: nat, m: nat, c: char, n: nat)
    requires i + m <= |s| && n >= 2
    requires forall j :: i <= j < i + m ==> s[j] == c
    ensures Without(Repeat(c, n - 1) + SqueezeFrom(s, i + m, c, n), c) == Without(SqueezeFrom(s, i + m, c, n), c)
    ensures Without(s[i..], c) == Without(s[i + m..], c)
  {
    assert s[i..] == s[i..i + m] + s[i + m..];
    WithoutAppend(Repeat(c, n - 1), SqueezeFrom(s, i + m, c, n), c);
    WithoutAppend(s[i..i + m], s[i + m..], c);
    WithoutAll(Repeat(c, n - 1), c);
    WithoutAll(s[i..i + m], c);
  }

  /** Squeezing runs of `c` changes runs of `c` only: with `c` left out, the
      text is unchanged. */
  lemma {:induction false} SqueezeFromWithout(s: string, i: nat, c: char, n: nat)
    requires i <= |s| && n >= 2
    ensures Without(SqueezeFrom(s, i, c, n), c) == Without(s[i..], c)
    decreases |s| - i
  {
    if i < |s| {
      var m := RunFrom(s, i, c);
      if m >= n {
        SqueezeFromWithout(s, i + m, c, n);
        SqueezeRunStepWithout(s, i, c, n);
      } else {
        SqueezeFromWithout(s, i + 1, c, n);
        SqueezeCharWithout(s, i, c, n);
      }
    }
  }

  lemma SqueezeRunStepWithout(s: string, i: nat, c: char, n: nat)
    requires i < |s| && n >= 2 && RunFrom(s, i, c) >= n
    requires Without(SqueezeFrom(s, i + RunFrom(s, i, c), c, n), c) == Without(s[i + RunFrom(s, i, c)..], c)
    ensures Without(SqueezeFrom(s, i, c, n), c) == Without(s[i..], c)
  {
    SqueezeRunWithout(s, i, RunFrom(s, i, c), c, n);
  }

  lemma SqueezeCharWithout(s: string, i: nat, c: char, n: nat)
    requires i < |s| && n >= 2 && RunFrom(s, i, c) < n
    requires Without(SqueezeFrom(s, i + 1, c, n), c) == Without(s[i + 1..], c)
    ensures Without(SqueezeFrom(s, i, c, n), c) == Without(s[i..], c)
  {
    assert s[i..] == [s[i]] + s[i + 1..];
    assert ([s[i]] + SqueezeFrom(s, i + 1, c, n))[1..] == SqueezeFrom(s, i + 1, c, n);
  }

  /** Keeping `k` of `m` copies of `c` in front. */
  lemma {:induction false} DropRun(k: nat, m: nat, b: string, a: string, c: char)
    requires k <= m && DeletesOnly(b, a, c)
    ensures DeletesOnly(Repeat(c, m) + b, Repeat(c, k) + a, c)
    decreases m
  {
    if m == 0 {
      assert Repeat(c, m) + b == b && Repeat(c, k) + a == a;
    } else {
      assert Repeat(c, m) + b == [c] + (Repeat(c, m - 1) + b);
      if k == m {
        DropRun(k - 1, m - 1, b, a, c);
        assert Repeat(c, k) + a == [c] + (Repeat(c, k - 1) + a);
        KeepHead(c, Repeat(c, m - 1) + b, Repeat(c, k - 1) + a, c);
      } else {
        DropRun(k, m - 1, b, a, c);
        DropHead(Repeat(c, m - 1) + b, Repeat(c, k) + a, c);
      }
    }
  }

  /** The scan from `i` only deletes copies of `c`. */
  lemma {:induction false} SqueezeFromOnlyDeletes(s: string, i: nat, c: char, n: nat)
    requires i <= |s| && n >= 2
    ensures DeletesOnly(s[i..], SqueezeFrom(s, i, c, n), c)
    decreases |s| - i
  {
    if i == |s| {
      assert s[i..] == [];
    } else if RunFrom(s, i, c) >= n {
      SqueezeFromOnlyDeletes(s, i + RunFrom(s, i, c), c, n);
      SqueezeRunDeletes(s, i, c, n);
    } else {
      SqueezeFromOnlyDeletes(s, i + 1, c, n);
      KeepHead(s[i], s[i + 1..], SqueezeFrom(s, i + 1, c, n), c);
      assert s[i..] == [s[i]] + s[i + 1..];
    }
  }

  lemma SqueezeRunDeletes(s: string, i: nat, c: char, n: nat)
    requires i < |s| && n >= 2 && RunFrom(s, i, c) >= n
    requires DeletesOnly(s[i + RunFrom(s, i, c)..], SqueezeFrom(s, i + RunFrom(s, i, c), c, n), c)
    ensures DeletesOnly(s[i..], SqueezeFrom(s, i, c, n), c)
  {
    var m := RunFrom(s, i, c);
    var rest := SqueezeFrom(s, i + m, c, n);
    DropRun(n - 1, m, s[i + m..], rest, c);
    assert s[i..i + m] == Repeat(c, m);
    assert s[i..] == Repeat(c, m) + s[i + m..];
    assert SqueezeFrom(s, i, c, n) == Repeat(c, n - 1) + rest;
  }

  lemma SqueezeRemovesOnly(s: string, c: char, n: nat)
    requires n >= 2
    ensures DeletesOnly(s, Squeeze(s, c, n), c)
    ensures Without(Squeeze(s, c, n), c) == Without(s, c)
  {
    SqueezeFromWithout(s, 0, c, n);
    SqueezeFromOnlyDeletes(s, 0, c, n);
    assert s[0..] == s;
  }

  /** Squeezing a whitespace character leaves the visible characters as
      they were. */
  lemma SqueezeVisible(s: string, c: char, n: nat)
    requires n >= 2 && IsSpace(c)
    ensures Visible(Squeeze(s, c, n)) == Visible(s)
  {
    SqueezeRemovesOnly(s, c, n);
    VisibleWithout(Squeeze(s, c, n), c);
    VisibleWithout(s, c);
  }

  /** No three newlines in a row. */
  predicate NoTripleNewline(s: string) {
    forall i :: 0 <= i < |s| - 2 ==> !(s[i] == '\n' && s[i + 1] == '\n' && s[i + 2] == '\n')
  }

  lemma SpacesSqueezed(s: string)
    requires RunsBelow(s, ' ', 2)
    ensures FreeOf(s, DoubleSpace)
  {
    forall i | 0 <= i < |s| - 1
      ensures !Matches(DoubleSpace, s[i], s[i + 1])
    {
      assert RunFrom(s, i, ' ') < 2;
    }
  }

  lemma NewlinesSqueezed(s: string)
    requires RunsBelow(s, '\n', 3)
    ensures NoTripleNewline(s)
  {
    forall i | 0 <= i < |s| - 2
      ensures !(s[i] == '\n' && s[i + 1] == '\n' && s[i + 2] == '\n')
    {
      assert RunFrom(s, i, '\n') < 3;
    }
  }

  lemma NoTripleNewlineSlice(s: string, lo: nat, hi: nat)
    requires lo <= hi <= |s| && NoTripleNewline(s)
    ensures NoTripleNewline(s[lo..hi])
  {
    var t := s[lo..hi];
    forall i | 0 <= i < |t| - 2
      ensures !(t[i] == '\n' && t[i + 1] == '\n' && t[i + 2] == '\n')
    {
      assert t[i] == s[lo + i] && t[i + 1] == s[lo + i + 1] && t[i + 2] == s[lo + i + 2];
    }
  }
}
