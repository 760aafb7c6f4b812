/** The glob matcher that decides which pattern listeners receive a message. */
module Glob {

  /** True iff pattern `p` from `pi` matches text `t` from `ti`, by backtracking over `*`. */
  predicate GlobInner(p: string, pi: nat, t: string, ti: nat)
    requires pi <= |p| && ti <= |t|
    decreases |p| - pi
  {
    if pi == |p| then
      ti == |t|
    else if p[pi] == '*' then
      var next := pi + 1;
      exists i :: ti <= i <= |t| && GlobInner(p, next, t, i)
    else if p[pi] == '?' then
      ti < |t| && GlobInner(p, pi + 1, t, ti + 1)
    else
      ti < |t| && t[ti] == p[pi] && GlobInner(p, pi + 1, t, ti + 1)
  }

  predicate Matches(pattern: string, text: string) {
    GlobInner(pattern, 0, text, 0)
  }

  // ---------- What a pattern means ----------

  /** The texts one pattern character stands for. */
  predicate Stands(c: char, s: string) {
    c == '*' || (if c == '?' then |s| == 1 else s == [c])
  }

  function Concat(parts: seq<string>): string {
    if parts == [] then "" else parts[0] + Concat(parts[1..])
  }

  /** `parts` cuts `t` into one piece per pattern character, each piece one the character stands for. */
  ghost predicate Cuts(parts: seq<string>, p: string, t: string) {
    |parts| == |p| && Concat(parts) == t && forall i :: 0 <= i < |p| ==> Stands(p[i], parts[i])
  }

  ghost predicate Denotes(p: string, t: string) {
    exists parts :: Cuts(parts, p, t)
  }

  /** The matcher decides the declarative meaning. */
  lemma MatchesIffDenotes(p: string, t: string)
    ensures Matches(p, t) <==> Denotes(p, t)
  {
    if Matches(p, t) {
      var parts := CutFound(p, 0, t, 0);
      assert p[0..] == p && t[0..] == t;
      assert Cuts(parts, p, t);
    }
    if Denotes(p, t) {
      var parts :| Cuts(parts, p, t);
      CutMatches(parts, p, 0, t, 0);
    }
  }

  lemma {:induction false} CutFound(p: string, pi: nat, t: string, ti: nat) returns (parts: seq<string>)
    requires pi <= |p| && ti <= |t| && GlobInner(p, pi, t, ti)
    ensures Cuts(parts, p[pi..], t[ti..])
    decreases |p| - pi
  {
    if pi == |p| {
      parts := [];
    } else {
      var next := ti + 1;
      if p[pi] == '*' {
        next :| ti <= next <= |t| && GlobInner(p, pi + 1, t, next);
      }
      var rest := CutFound(p, pi + 1, t, next);
      parts := [t[ti..next]] + rest;
      assert parts[1..] == rest;
      assert t[ti..] == t[ti..next] + t[next..];
      forall i | 0 <= i < |p[pi..]|
        ensures Stands(p[pi..][i], parts[i])
      {
        if i > 0 { assert p[pi..][i] == p[pi + 1..][i - 1]; }
      }
    }
  }

  lemma {:induction false} CutMatches(parts: seq<string>, p: string, pi: nat, t: string, ti: nat)
    requires pi <= |p| && ti <= |t| && Cuts(parts, p[pi..], t[ti..])
    ensures GlobInner(p, pi, t, ti)
    decreases |p| - pi
  {
    if pi < |p| {
      var head := parts[0];
      assert Stands(p[pi..][0], head);
      var next := ti + |head|;
      assert t[ti..] == head + Concat(parts[1..]);
      assert t[next..] == t[ti..][|head|..];
      assert head == t[ti..][..|head|];
      forall i | 0 <= i < |p| - pi - 1
        ensures Stands(p[pi + 1..][i], parts[1..][i])
      {
        assert p[pi + 1..][i] == p[pi..][i + 1];
      }
      CutMatches(parts[1..], p, pi + 1, t, next);
    }
  }

  // ---------- Laws of the meaning ----------

  lemma {:induction false} ConcatAppend(a: seq<string>, b: seq<string>)
    ensures Concat(a + b) == Concat(a) + Concat(b)
  {
    if a == [] {
      assert a + b == b;
    } else {
      ConcatAppend(a[1..], b);
      assert (a + b)[1..] == a[1..] + b;
      var first, middle, last := a[0], Concat(a[1..]), Concat(b);
      assert first + (middle + last) == (first + middle) + last;
    }
  }

  /** A pattern made of two halves matches exactly the texts that split into a match of each half. */
  lemma MatchSplits(p: string, q: string, t: string)
    ensures Matches(p + q, t) <==> exists k :: 0 <= k <= |t| && Matches(p, t[..k]) && Matches(q, t[k..])
  {
    MatchesIffDenotes(p + q, t);
    if Matches(p + q, t) {
      var parts :| Cuts(parts, p + q, t);
      var a, b := parts[..|p|], parts[|p|..];
      assert parts == a + b;
      ConcatAppend(a, b);
      var k := |Concat(a)|;
      assert t[..k] == Concat(a) && t[k..] == Concat(b);
      assert forall i :: 0 <= i < |p| ==> Stands((p + q)[i], parts[i]);
      forall i | 0 <= i < |q| ensures Stands(q[i], b[i]) {
        assert Stands((p + q)[i + |p|], parts[i + |p|]);
      }
      assert Cuts(a, p, t[..k]) && Cuts(b, q, t[k..]);
      MatchesIffDenotes(p, t[..k]);
      MatchesIffDenotes(q, t[k..]);
    }
    forall k | 0 <= k <= |t| && Matches(p, t[..k]) && Matches(q, t[k..])
      ensures Matches(p + q, t)
    {
      MatchesIffDenotes(p, t[..k]);
      MatchesIffDenotes(q, t[k..]);
      var a :| Cuts(a, p, t[..k]);
      var b :| Cuts(b, q, t[k..]);
      ConcatAppend(a, b);
      assert t == t[..k] + t[k..];
      assert Cuts(a + b, p + q, t);
    }
  }

  /** `*` alone matches everything. */
  lemma StarMatchesAll(t: string)
    ensures Matches("*", t)
  {
    assert GlobInner("*", 1, t, |t|);
  }

  lemma TwoStarsMatchAll(t: string)
    ensures Matches("**", t)
  {
    assert GlobInner("**", 2, t, |t|);
    assert GlobInner("**", 1, t, 0);
  }

  /** Drops every `*` that directly follows another. */
  function Collapse(p: string): string {
    if |p| < 2 then p
    else if p[0] == '*' && p[1] == '*' then Collapse(p[1..])
    else [p[0]] + Collapse(p[1..])
  }

  /** What is left has no two `*` in a row. */
  lemma {:induction false} CollapseLeavesNoRuns(p: string, i: nat)
    requires i + 1 < |Collapse(p)|
    ensures !(Collapse(p)[i] == '*' && Collapse(p)[i + 1] == '*')
    decreases |p|
  {
    CollapseKeepsHead(p);
    var rest := p[1..];
    if p[0] == '*' && p[1] == '*' {
      CollapseLeavesNoRuns(rest, i);
    } else if i > 0 {
      CollapseLeavesNoRuns(rest, i - 1);
    } else {
      CollapseKeepsHead(rest);
    }
  }

  lemma {:induction false} CollapseKeepsHead(p: string)
    ensures |Collapse(p)| >= 2 ==> |p| >= 2
    ensures p != [] ==> Collapse(p) != [] && Collapse(p)[0] == p[0]
    decreases |p|
  {
    if |p| >= 2 {
      CollapseKeepsHead(p[1..]);
    }
  }

  /** A run of `*` means the same as one `*`. */
  lemma {:induction false} CollapseKeepsMeaning(p: string, t: string)
    ensures Matches(Collapse(p), t) <==> Matches(p, t)
    decreases |p|
  {
    if |p| >= 2 {
      var head, rest := [p[0]], p[1..];
      assert p == head + rest;
      if p[0] == '*' && p[1] == '*' {
        CollapseKeepsMeaning(rest, t);
        var tail := p[2..];
        assert p == "**" + tail && rest == "*" + tail;
        MatchSplits("**", tail, t);
        MatchSplits("*", tail, t);
        forall k | 0 <= k <= |t| ensures Matches("**", t[..k]) && Matches("*", t[..k]) {
          StarMatchesAll(t[..k]);
          TwoStarsMatchAll(t[..k]);
        }
      } else {
        MatchSplits(head, rest, t);
        MatchSplits(head, Collapse(rest), t);
        forall k | 0 <= k <= |t| ensures Matches(Collapse(rest), t[k..]) <==> Matches(rest, t[k..]) {
          CollapseKeepsMeaning(rest, t[k..]);
        }
      }
    }
  }

  // ---------- A table without backtracking ----------

  /** One row of the table for a leading `c`, read off the row `below` of the rest of the pattern. */
  function Row(c: char, t: string, below: seq<bool>): (row: seq<bool>)
    requires |below| == |t| + 1
    ensures |row| == |t| + 1
  {
    if c == '*' then
      seq(|t| + 1, i requires 0 <= i <= |t| => exists j :: i <= j <= |t| && below[j])
    else
      seq(|t| + 1, i requires 0 <= i <= |t| => i < |t| && (c == '?' || c == t[i]) && below[i + 1])
  }

  /** Row `pi` of the |p| x |t| table, filled from the last pattern character upwards. */
  function Table(p: string, pi: nat, t: string): (row: seq<bool>)
    requires pi <= |p|
    ensures |row| == |t| + 1
    decreases |p| - pi
  {
    if pi == |p| then seq(|t| + 1, i => i == |t|) else Row(p[pi], t, Table(p, pi + 1, t))
  }

  /** Filling each cell of the table once computes what the backtracking search computes. */
  lemma {:induction false} TableIsSearch(p: string, pi: nat, t: string, ti: nat)
    requires pi <= |p| && ti <= |t|
    ensures Table(p, pi, t)[ti] <==> GlobInner(p, pi, t, ti)
    decreases |p| - pi
  {
    if pi < |p| {
      var next := pi + 1;
      forall i | 0 <= i <= |t| ensures Table(p, next, t)[i] <==> GlobInner(p, next, t, i) {
        TableIsSearch(p, next, t, i);
      }
    }
  }

  /** A pattern without wildcards matches only itself. */
  lemma {:induction false} LiteralMatchesItself(p: string, pi: nat, t: string, ti: nat)
    requires pi <= |p| && ti <= |t|
    requires '*' !in p && '?' !in p
    ensures GlobInner(p, pi, t, ti) <==> p[pi..] == t[ti..]
    decreases |p| - pi
  {
    if pi < |p| {
      assert p[pi..] == [p[pi]] + p[pi + 1..];
      if ti < |t| {
        LiteralMatchesItself(p, pi + 1, t, ti + 1);
        assert t[ti..] == [t[ti]] + t[ti + 1..];
        if p[pi..] == t[ti..] {
          assert p[pi + 1..] == p[pi..][1..] == t[ti..][1..] == t[ti + 1..];
        }
      }
    }
  }

  /** A text that matches a pattern begins with the pattern's leading literal. */
  lemma LiteralHeadMatches(head: string, p: string, t: string)
    requires head <= p && '*' !in head && '?' !in head && Matches(p, t)
    ensures head <= t
  {
    assert p == head + p[|head|..];
    MatchSplits(head, p[|head|..], t);
    var k :| 0 <= k <= |t| && Matches(head, t[..k]) && Matches(p[|head|..], t[k..]);
    LiteralMatchesItself(head, 0, t[..k], 0);
    assert head[0..] == head && t[..k][0..] == t[..k];
  }
}
