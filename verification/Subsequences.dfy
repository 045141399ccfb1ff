/** src/cacheslide_vllm/reproduction_metrics.py: the rolling-row dynamic program for the
    longest common subsequence, against the definition by embeddings. */
module Subsequences {

  type Word = string

  /** The indices pick the words of `w` out of `a`, in order. */
  predicate Embeds(w: seq<Word>, a: seq<Word>, e: seq<nat>) {
    && |e| == |w|
    && (forall i :: 0 <= i < |e| ==> e[i] < |a| && a[e[i]] == w[i])
    && (forall i, j :: 0 <= i < |e| && i < j < |e| ==> e[i] < e[j])
  }

  ghost predicate Subsequence(w: seq<Word>, a: seq<Word>) {
    exists e: seq<nat> :: Embeds(w, a, e)
  }

  ghost predicate Common(w: seq<Word>, a: seq<Word>, b: seq<Word>) {
    Subsequence(w, a) && Subsequence(w, b)
  }

  /** `n` is the length of a longest common subsequence. */
  ghost predicate Longest(n: nat, a: seq<Word>, b: seq<Word>) {
    && (exists w :: Common(w, a, b) && |w| == n)
    && (forall w :: Common(w, a, b) ==> |w| <= n)
  }

  function Max(x: nat, y: nat): nat {
    if x < y then y else x
  }

  /** The table's entry for two prefixes. */
  function Table(a: seq<Word>, b: seq<Word>): nat
    decreases |a| + |b|
  {
    if a == [] || b == [] then 0
    else if a[|a| - 1] == b[|b| - 1] then Table(a[..|a| - 1], b[..|b| - 1]) + 1
    else Max(Table(a[..|a| - 1], b), Table(a, b[..|b| - 1]))
  }

  // ---- the table is right ---------------------------------------------------------------

  lemma CommonLonger(w: seq<Word>, a: seq<Word>, b: seq<Word>, k: nat, l: nat)
    requires k <= |a| && l <= |b| && Common(w, a[..k], b[..l])
    ensures Common(w, a, b)
  {
    var e: seq<nat> :| Embeds(w, a[..k], e);
    var f: seq<nat> :| Embeds(w, b[..l], f);
    assert Embeds(w, a, e) && Embeds(w, b, f);
  }

  lemma EmbedsAppend(w: seq<Word>, a: seq<Word>, e: seq<nat>)
    requires a != [] && Embeds(w, a[..|a| - 1], e)
    ensures Embeds(w + [a[|a| - 1]], a, e + [|a| - 1])
  {}

  lemma CommonAppend(w: seq<Word>, a: seq<Word>, b: seq<Word>)
    requires a != [] && b != [] && a[|a| - 1] == b[|b| - 1] && Common(w, a[..|a| - 1], b[..|b| - 1])
    ensures Common(w + [a[|a| - 1]], a, b)
  {
    var e: seq<nat> :| Embeds(w, a[..|a| - 1], e);
    var f: seq<nat> :| Embeds(w, b[..|b| - 1], f);
    EmbedsAppend(w, a, e);
    EmbedsAppend(w, b, f);
  }

  /** Some common subsequence is as long as the entry says. */
  lemma {:induction false} TableAttained(a: seq<Word>, b: seq<Word>) returns (w: seq<Word>)
    ensures Common(w, a, b) && |w| == Table(a, b)
    decreases |a| + |b|
  {
    if a == [] || b == [] {
      w := [];
      assert Embeds(w, a, []) && Embeds(w, b, []);
    } else if a[|a| - 1] == b[|b| - 1] {
      w := TableAttained(a[..|a| - 1], b[..|b| - 1]);
      CommonAppend(w, a, b);
      w := w + [a[|a| - 1]];
    } else if Table(a[..|a| - 1], b) < Table(a, b[..|b| - 1]) {
      w := TableAttained(a, b[..|b| - 1]);
      assert a[..|a|] == a;
      CommonLonger(w, a, b, |a|, |b| - 1);
    } else {
      w := TableAttained(a[..|a| - 1], b);
      assert b[..|b|] == b;
      CommonLonger(w, a, b, |a| - 1, |b|);
    }
  }

  /** An embedding that does not use the last word stays inside the shorter prefix. */
  lemma EmbedsShorter(w: seq<Word>, a: seq<Word>, e: seq<nat>)
    requires Embeds(w, a, e) && w != [] && e[|e| - 1] < |a| - 1
    ensures Embeds(w, a[..|a| - 1], e)
  {}

  lemma EmbedsInit(w: seq<Word>, a: seq<Word>, e: seq<nat>)
    requires Embeds(w, a, e) && w != []
    ensures a != [] && Embeds(w[..|w| - 1], a[..|a| - 1], e[..|e| - 1])
  {
    var last := |e| - 1;
    assert e[last] < |a|;
    forall i | 0 <= i < last ensures e[i] < |a| - 1 { assert e[i] < e[last]; }
  }

  /** No common subsequence is longer than the entry. */
  lemma {:induction false} TableBounds(w: seq<Word>, a: seq<Word>, b: seq<Word>, e: seq<nat>, f: seq<nat>)
    requires Embeds(w, a, e) && Embeds(w, b, f)
    ensures |w| <= Table(a, b)
    decreases |a| + |b|
  {
    if w != [] {
      EmbedsInit(w, a, e);
      EmbedsInit(w, b, f);
      if a[|a| - 1] == b[|b| - 1] {
        TableBounds(w[..|w| - 1], a[..|a| - 1], b[..|b| - 1], e[..|e| - 1], f[..|f| - 1]);
      } else if e[|e| - 1] < |a| - 1 {
        EmbedsShorter(w, a, e);
        TableBounds(w, a[..|a| - 1], b, e, f);
      } else {
        EmbedsShorter(w, b, f);
        TableBounds(w, a, b[..|b| - 1], e, f);
      }
    }
  }

  lemma TableIsLongest(a: seq<Word>, b: seq<Word>)
    ensures Longest(Table(a, b), a, b)
  {
    var best := TableAttained(a, b);
    forall w | Common(w, a, b) ensures |w| <= Table(a, b) {
      var e: seq<nat> :| Embeds(w, a, e);
      var f: seq<nat> :| Embeds(w, b, f);
      TableBounds(w, a, b, e, f);
    }
  }

  // ---- the program -------------------------------------------------------------------------

  lemma Prefix(a: seq<Word>, i: nat)
    requires i < |a|
    ensures a[..i + 1][..i] == a[..i] && a[..i + 1][i] == a[i]
  {}

  lemma TableStep(a: seq<Word>, b: seq<Word>, i: nat, j: nat)
    requires i < |a| && j < |b|
    ensures Table(a[..i + 1], b[..j + 1]) ==
      if a[i] == b[j] then Table(a[..i], b[..j]) + 1 else Max(Table(a[..i], b[..j + 1]), Table(a[..i + 1], b[..j]))
  {
    Prefix(a, i);
    Prefix(b, j);
  }

  /** One row from the previous one. */
  method NextRow(a: seq<Word>, b: seq<Word>, i: nat, previous: seq<nat>) returns (current: seq<nat>)
    requires i < |a| && |previous| == |b| + 1 && forall j :: 0 <= j <= |b| ==> previous[j] == Table(a[..i], b[..j])
    ensures |current| == |b| + 1 && forall j :: 0 <= j <= |b| ==> current[j] == Table(a[..i + 1], b[..j])
  {
    current := [0];
    for index := 0 to |b|
      invariant |current| == index + 1 && forall j :: 0 <= j <= index ==> current[j] == Table(a[..i + 1], b[..j])
    {
      TableStep(a, b, i, index);
      current := current + [if a[i] == b[index] then previous[index] + 1
            else Max(previous[index + 1], current[|current| - 1])];
    }
  }

  /** `lcs_length`, which keeps only one row over the shorter operand. */
  method LcsLength(left: seq<Word>, right: seq<Word>) returns (n: nat)
    ensures Longest(n, left, right)
  {
    var a, b := left, right;
    if |a| < |b| { a, b := b, a; }
    var previous := seq(|b| + 1, _ => 0);
    for i := 0 to |a|
      invariant |previous| == |b| + 1 && forall j :: 0 <= j <= |b| ==> previous[j] == Table(a[..i], b[..j])
    {
      previous := NextRow(a, b, i, previous);
    }
    n := previous[|previous| - 1];
    assert a[..|a|] == a && b[..|b|] == b;
    TableIsLongest(a, b);
    Swapped(n, a, b);
  }

  lemma Swapped(n: nat, a: seq<Word>, b: seq<Word>)
    requires Longest(n, a, b)
    ensures Longest(n, b, a)
  {
    var w :| Common(w, a, b) && |w| == n;
    assert Common(w, b, a);
    forall w | Common(w, b, a) ensures |w| <= n { assert Common(w, a, b); }
  }
}
