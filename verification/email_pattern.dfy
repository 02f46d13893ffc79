/** The e-mail test of the client form, `/\S+@\S+\.\S+/.test(email)`.

    The expression has no anchors, so it succeeds when SOME infix of the text
    is a non-empty run of non-space characters, '@', another such run, '.',
    and a third such run. `RegexMatch` states exactly that; `Test` decides it
    in one left-to-right pass with the expression's automaton, and is proved
    to agree with `RegexMatch` on every string. */
module EmailPattern {
  import opened Text

  /** `s[lo..hi]` is a non-empty run of non-space characters. */
  ghost predicate Run(s: string, lo: int, hi: int) {
    0 <= lo < hi <= |s| && forall m :: lo <= m < hi ==> !IsSpace(s[m])
  }

  /** `s[i..e]` matches the expression, with its '@' at `p` and its '.' at `q`. */
  ghost predicate Window(s: string, i: int, p: int, q: int, e: int) {
    && Run(s, i, p) && p < |s| && s[p] == '@'
    && Run(s, p + 1, q) && q < |s| && s[q] == '.'
    && Run(s, q + 1, e)
  }

  /** What `RegExp.prototype.test` answers for this expression. */
  ghost predicate RegexMatch(s: string) {
    exists i, p, q, e :: Window(s, i, p, q, e)
  }

  // The automaton's states, each described by what the prefix s[..k] read so
  // far ends with.

  /** An '@' at `p` with a non-space character right before it. */
  ghost predicate AtSign(s: string, p: int) {
    1 <= p < |s| && s[p] == '@' && !IsSpace(s[p - 1])
  }

  /** s[..k] ends with an '@' preceded by a non-space, then a non-empty run. */
  ghost predicate Mid(s: string, k: int) {
    exists p :: AtSign(s, p) && Run(s, p + 1, k)
  }

  /** s[q] is a '.' closing a `Mid` prefix. */
  ghost predicate DotAt(s: string, q: int) {
    0 <= q < |s| && s[q] == '.' && Mid(s, q)
  }

  /** s[..k] already contains a whole match. */
  ghost predicate Found(s: string, k: int) {
    exists q :: DotAt(s, q) && q + 1 < k <= |s| && !IsSpace(s[q + 1])
  }

  /** The anchored-at-the-end description of a match is equivalent to the
      expression's: a match only needs one character on either side of '@'
      and '.', so the shortest window around them suffices. */
  lemma FoundIffRegexMatch(s: string)
    ensures Found(s, |s|) <==> RegexMatch(s)
  {
    if Found(s, |s|) {
      var q :| DotAt(s, q) && q + 1 < |s| && !IsSpace(s[q + 1]);
      var p :| AtSign(s, p) && Run(s, p + 1, q);
      assert Window(s, p - 1, p, q, q + 2);
    }
    if RegexMatch(s) {
      var i, p, q, e :| Window(s, i, p, q, e);
      assert AtSign(s, p) && Run(s, p + 1, q);
      assert DotAt(s, q) && q + 1 < |s| && !IsSpace(s[q + 1]);
    }
  }

  /** Which states of the automaton for `\S+@\S+\.\S+` are active; the start
      state is always active because the expression is unanchored. */
  datatype Nfa = Nfa(first: bool, at: bool, mid: bool, dot: bool, found: bool)

  const Start: Nfa := Nfa(false, false, false, false, false)

  function Step(n: Nfa, c: char): Nfa {
    var nonSpace := !IsSpace(c);
    Nfa(nonSpace,
        n.first && c == '@',
        nonSpace && (n.at || n.mid),
        n.mid && c == '.',
        n.found || (n.dot && nonSpace))
  }

  /** The states active after reading s[..k]. */
  ghost predicate Inv(s: string, k: int, n: Nfa) {
    && 0 <= k <= |s|
    && n.first == (k >= 1 && !IsSpace(s[k - 1]))
    && n.at == (k >= 1 && AtSign(s, k - 1))
    && n.mid == Mid(s, k)
    && n.dot == (k >= 1 && DotAt(s, k - 1))
    && n.found == Found(s, k)
  }

  lemma MidStep(s: string, k: int)
    requires 0 <= k < |s|
    ensures Mid(s, k + 1) <==> !IsSpace(s[k]) && ((k >= 1 && AtSign(s, k - 1)) || Mid(s, k))
  {
    if Mid(s, k + 1) {
      var p :| AtSign(s, p) && Run(s, p + 1, k + 1);
      if p + 1 < k {
        assert Run(s, p + 1, k);
      }
    }
    if !IsSpace(s[k]) && k >= 1 && AtSign(s, k - 1) {
      assert Run(s, k, k + 1);
    }
    if !IsSpace(s[k]) && Mid(s, k) {
      var p :| AtSign(s, p) && Run(s, p + 1, k);
      assert Run(s, p + 1, k + 1);
    }
  }

  lemma FoundStep(s: string, k: int)
    requires 0 <= k < |s|
    ensures Found(s, k + 1) <==> Found(s, k) || (k >= 1 && DotAt(s, k - 1) && !IsSpace(s[k]))
  {
    if Found(s, k + 1) && !Found(s, k) {
      var q :| DotAt(s, q) && q + 1 < k + 1 <= |s| && !IsSpace(s[q + 1]);
      assert q == k - 1;
    }
  }

  lemma StepKeepsInv(s: string, k: int, n: Nfa)
    requires Inv(s, k, n) && k < |s|
    ensures Inv(s, k + 1, Step(n, s[k]))
  {
    MidStep(s, k);
    FoundStep(s, k);
  }

  /** Runs the automaton over s[k..] from the states active after s[..k];
      its answer at the end of the text is whether the text matches. */
  function Scan(s: string, k: int, n: Nfa): (b: bool)
    requires Inv(s, k, n)
    ensures b <==> RegexMatch(s)
    decreases |s| - k
  {
    if k == |s| then
      FoundIffRegexMatch(s);
      n.found
    else
      StepKeepsInv(s, k, n);
      Scan(s, k + 1, Step(n, s[k]))
  }

  /** `/\S+@\S+\.\S+/.test(s)`. */
  function Test(s: string): (b: bool)
    ensures b <==> RegexMatch(s)
  {
    assert !Mid(s, 0);
    Scan(s, 0, Start)
  }

  /** The expression is unanchored: a text that matches still matches with
      anything at all added on either side. */
  lemma PaddingKeepsMatch(s: string, a: string, b: string)
    requires RegexMatch(s)
    ensures RegexMatch(a + s + b)
  {
    var i, p, q, e :| Window(s, i, p, q, e);
    var t := a + s + b;
    var k := |a|;
    assert forall m :: 0 <= m < |s| ==> t[k + m] == s[m];
    RunShifts(s, t, k, i, p);
    RunShifts(s, t, k, p + 1, q);
    RunShifts(s, t, k, q + 1, e);
    assert Window(t, k + i, k + p, k + q, k + e);
  }

  /** A run of `s` is still a run where `s` sits at offset `k` inside `t`. */
  lemma RunShifts(s: string, t: string, k: nat, lo: int, hi: int)
    requires k + |s| <= |t|
    requires forall m :: 0 <= m < |s| ==> t[k + m] == s[m]
    requires Run(s, lo, hi)
    ensures Run(t, k + lo, k + hi)
  {
    forall m | k + lo <= m < k + hi
      ensures !IsSpace(t[m])
    {
      assert t[k + (m - k)] == s[m - k];
    }
  }

  /** A matching text is never blank: its '@' is not white space. */
  lemma MatchIsNotBlank(s: string)
    requires RegexMatch(s)
    ensures !AllSpace(s)
  {
    var i, p, q, e :| Window(s, i, p, q, e);
    assert !IsSpace(s[p]);
  }

  /** Examples: text and spaces around a match do not matter, a space inside
      one of the three runs does, and so do a missing first run and the
      empty text. */
  lemma Samples()
    ensures Test("a@b.c")
    ensures Test(" x a@b.c y ")
    ensures !Test("a@b .c")
    ensures !Test("@b.c")
    ensures !Test("")
  {
    assert Window("a@b.c", 0, 1, 3, 5);
    assert Window(" x a@b.c y ", 3, 4, 6, 8);
  }
}
