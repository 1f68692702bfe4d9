/**
 * The position-to-word interval map and the fixated-word lookup. Word k of
 * the sentence owns the closed interval from its first letter to one past
 * its trailing space; the first word starts at 1. The source keeps the map
 * in an insertion-ordered dictionary; its keys are distinct (they strictly
 * increase), so a sequence in sentence order is the same thing.
 */
module Positions {
  import opened Reading

  datatype Interval = Interval(start: int, end: int, token: string)

  predicate Contains(iv: Interval, fp: real) {
    iv.start as real <= fp && fp <= iv.end as real
  }

  /** The first letter of the word that would follow `words`. */
  function NextStart(words: seq<Word>): int {
    if |words| == 0 then 1
    else NextStart(words[..|words| - 1]) + 1 + |words[|words| - 1].token|
  }

  /** The intervals of `words`, in sentence order. */
  function Intervals(words: seq<Word>): seq<Interval> {
    if |words| == 0 then []
    else
      var prefix := words[..|words| - 1];
      Intervals(prefix) + [Interval(NextStart(prefix), NextStart(words), words[|words| - 1].token)]
  }

  /** The index of the first interval, in order, containing `fp`. */
  function FirstContaining(ivs: seq<Interval>, fp: real): (r: Option<nat>)
    ensures r.Some? ==> r.value < |ivs| && Contains(ivs[r.value], fp)
    ensures r.Some? ==> forall j :: 0 <= j < r.value ==> !Contains(ivs[j], fp)
    ensures r.None? <==> forall j :: 0 <= j < |ivs| ==> !Contains(ivs[j], fp)
  {
    if |ivs| == 0 then None
    else if Contains(ivs[0], fp) then Some(0)
    else
      match FirstContaining(ivs[1..], fp)
      case None => None
      case Some(k) => Some(k + 1)
  }

  /** The token of the first interval containing `fp`, if any. */
  function Lookup(ivs: seq<Interval>, fp: real): Option<string> {
    match FirstContaining(ivs, fp)
    case None => None
    case Some(k) => Some(ivs[k].token)
  }

  /** `Lookup` names the token of interval k exactly when k is the first to contain `fp`. */
  lemma LookupIsFirst(ivs: seq<Interval>, fp: real, k: nat)
    requires k < |ivs| && Contains(ivs[k], fp)
    requires forall j :: 0 <= j < k ==> !Contains(ivs[j], fp)
    ensures FirstContaining(ivs, fp) == Some(k)
    ensures Lookup(ivs, fp) == Some(ivs[k].token)
  {
  }

  /** Word k's interval is `(p_k, p_k + 1 + len(token_k))` with `p_k = NextStart(words[..k])`. */
  lemma {:induction false} IntervalAt(words: seq<Word>, k: nat)
    requires k < |words|
    ensures |Intervals(words)| == |words|
    ensures Intervals(words)[k]
         == Interval(NextStart(words[..k]), NextStart(words[..k]) + 1 + |words[k].token|, words[k].token)
  {
    var n := |words|;
    var prefix := words[..n - 1];
    if k == n - 1 {
      IntervalsLength(prefix);
      assert words[..k] == prefix;
    } else {
      IntervalAt(prefix, k);
      assert prefix[..k] == words[..k];
    }
    IntervalsLength(words);
  }

  lemma {:induction false} IntervalsLength(words: seq<Word>)
    ensures |Intervals(words)| == |words|
  {
    if |words| > 0 {
      IntervalsLength(words[..|words| - 1]);
    }
  }

  /** The first word starts at 1; each word starts where the previous interval ends. */
  lemma SharedEndpoints(words: seq<Word>, k: nat)
    requires k + 1 < |words|
    ensures |Intervals(words)| == |words|
    ensures Intervals(words)[0].start == 1
    ensures Intervals(words)[k].end == Intervals(words)[k + 1].start
  {
    IntervalAt(words, 0);
    IntervalAt(words, k);
    IntervalAt(words, k + 1);
    assert words[..k + 1][..k] == words[..k];
  }

  /** Start offsets never decrease along the sentence (they strictly increase). */
  lemma {:induction false} NextStartMonotone(words: seq<Word>, j: nat, k: nat)
    requires j <= k <= |words|
    ensures NextStart(words[..j]) + (k - j) <= NextStart(words[..k])
  {
    if j < k {
      NextStartMonotone(words, j, k - 1);
      assert words[..k][..k - 1] == words[..k - 1];
    }
  }

  /** Every interval before word k ends no later than word k starts. */
  lemma {:induction false} EndsBefore(words: seq<Word>, k: nat)
    requires k <= |words|
    ensures |Intervals(words)| == |words|
    ensures forall j :: 0 <= j < k ==> Intervals(words)[j].end <= NextStart(words[..k])
  {
    IntervalsLength(words);
    if k > 0 {
      EndsBefore(words, k - 1);
      IntervalAt(words, k - 1);
      assert words[..k][..k - 1] == words[..k - 1];
    }
  }

  /**
   * The lookup of a position strictly inside word k's interval (past its
   * first letter) is word k: every earlier interval ends at or before it.
   */
  lemma LookupPastStart(words: seq<Word>, k: nat, fp: real)
    requires k < |words|
    requires NextStart(words[..k]) as real < fp <= (NextStart(words[..k]) + 1 + |words[k].token|) as real
    ensures FirstContaining(Intervals(words), fp) == Some(k)
    ensures Lookup(Intervals(words), fp) == Some(words[k].token)
  {
    IntervalAt(words, k);
    EndsBefore(words, k);
    LookupIsFirst(Intervals(words), fp, k);
  }

  /** A position on the first letter of word k > 0 is claimed by word k - 1 (shared endpoint). */
  lemma LookupAtStart(words: seq<Word>, k: nat)
    requires 0 < k < |words|
    ensures Lookup(Intervals(words), NextStart(words[..k]) as real) == Some(words[k - 1].token)
  {
    var fp := NextStart(words[..k]) as real;
    assert words[..k][..k - 1] == words[..k - 1];
    if k - 1 == 0 {
      IntervalAt(words, 0);
      LookupIsFirst(Intervals(words), fp, 0);
    } else {
      NextStartMonotone(words, k - 1, k);
      LookupPastStart(words, k - 1, fp);
    }
  }

  /** Builds the map with the source's loop: a running position advanced by `1 + len`. */
  method BuildPositionMap(words: seq<Word>) returns (m: seq<Interval>)
    ensures m == Intervals(words)
  {
    m := [];
    var position := 1;
    for k := 0 to |words|
      invariant m == Intervals(words[..k])
      invariant position == NextStart(words[..k])
    {
      assert words[..k + 1][..k] == words[..k];
      m := m + [Interval(position, position + 1 + |words[k].token|, words[k].token)];
      position := position + 1 + |words[k].token|;
    }
    assert words[..|words|] == words;
  }

  /** Scans the map in order and stops at the first interval containing `fp`. */
  method FindContaining(m: seq<Interval>, fp: real) returns (r: Option<string>)
    ensures r == Lookup(m, fp)
  {
    var k := 0;
    while k < |m|
      invariant 0 <= k <= |m|
      invariant forall j :: 0 <= j < k ==> !Contains(m[j], fp)
    {
      if Contains(m[k], fp) {
        LookupIsFirst(m, fp, k);
        return Some(m[k].token);
      }
      k := k + 1;
    }
    return None;
  }
}
