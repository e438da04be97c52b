/** Trade candidates and their ranking: a stable sort into non-increasing
    (confidence, reward-to-risk) order, as Python's list.sort with
    reverse=True does, and the truncation of a side's list for display. */
module Ranking {
  import opened Common
  import opened Trade

  /** One emitted candidate. The gap is stored as (low, high) for both
      sides; confidence and reward-to-risk are rounded to two decimals and
      the RSI to one, as the source stores them. */
  datatype Candidate = Candidate(symbol: string, side: Side, price: real, gapLow: real, gapHigh: real,
                                 entry: real, stopLoss: real, takeProfit1: real, takeProfit2: real,
                                 riskReward: real, confidence: real, rsi: real)

  /** a's key (confidence, riskReward) is lexicographically greater than b's. */
  predicate RanksAbove(a: Candidate, b: Candidate)
  {
    a.confidence > b.confidence || (a.confidence == b.confidence && a.riskReward > b.riskReward)
  }

  /** a has the key (c, rr). */
  predicate HasKey(a: Candidate, c: real, rr: real)
  {
    a.confidence == c && a.riskReward == rr
  }

  /** Non-increasing by key: no later element ranks above an earlier one. */
  predicate SortedByRank(s: seq<Candidate>)
  {
    forall i, j :: 0 <= i < j < |s| ==> !RanksAbove(s[j], s[i])
  }

  /** Inserts x, which came after every element of s, behind every element
      it does not rank above. */
  function Insert(s: seq<Candidate>, x: Candidate): (r: seq<Candidate>)
    ensures |r| == |s| + 1
    ensures multiset(r) == multiset(s) + multiset{x}
  {
    if s == [] then [x]
    else
      var init, last := s[..|s| - 1], s[|s| - 1];
      assert s == init + [last];
      if RanksAbove(x, last) then Insert(init, x) + [last] else s + [x]
  }

  /** Inserting into a sorted list keeps it sorted. */
  lemma {:induction false} InsertSorted(s: seq<Candidate>, x: Candidate)
    requires SortedByRank(s)
    ensures SortedByRank(Insert(s, x))
  {
    if s != [] {
      var init, last := s[..|s| - 1], s[|s| - 1];
      assert s == init + [last];
      if RanksAbove(x, last) {
        InsertSorted(init, x);
        var t := Insert(init, x);
        forall i | 0 <= i < |t|
          ensures !RanksAbove(last, t[i])
        {
          assert t[i] in multiset(t);
          assert t[i] in multiset(init) || t[i] == x;
          if t[i] != x {
            var k :| 0 <= k < |init| && init[k] == t[i];
            assert s[k] == t[i];
          }
        }
        var r := t + [last];
        assert Insert(s, x) == r;
        forall i, j | 0 <= i < j < |r|
          ensures !RanksAbove(r[j], r[i])
        {
          if j < |t| {
            assert r[i] == t[i] && r[j] == t[j];
          }
        }
      } else {
        var r := s + [x];
        assert Insert(s, x) == r;
        forall i, j | 0 <= i < j < |r|
          ensures !RanksAbove(r[j], r[i])
        {
          if j == |s| {
            assert r[i] == s[i];
            if i < |s| - 1 {
              assert !RanksAbove(s[|s| - 1], s[i]);
            }
          } else {
            assert r[i] == s[i] && r[j] == s[j];
          }
        }
      }
    }
  }

  /** The stable sort: each element in turn inserted behind the sorted
      prefix. */
  function SortByRank(s: seq<Candidate>): (r: seq<Candidate>)
    ensures |r| == |s|
    ensures multiset(r) == multiset(s)
    ensures SortedByRank(r)
  {
    if s == [] then []
    else
      var init, last := s[..|s| - 1], s[|s| - 1];
      assert s == init + [last];
      var sorted := SortByRank(init);
      InsertSorted(sorted, last);
      Insert(sorted, last)
  }

  /** The elements of s with key (c, rr), in order. */
  function WithKey(s: seq<Candidate>, c: real, rr: real): (r: seq<Candidate>)
    ensures |r| <= |s|
    ensures forall i :: 0 <= i < |r| ==> HasKey(r[i], c, rr)
  {
    if s == [] then []
    else WithKey(s[..|s| - 1], c, rr) + (if HasKey(s[|s| - 1], c, rr) then [s[|s| - 1]] else [])
  }

  lemma WithKeySnoc(s: seq<Candidate>, y: Candidate, c: real, rr: real)
    ensures WithKey(s + [y], c, rr) == WithKey(s, c, rr) + (if HasKey(y, c, rr) then [y] else [])
  {
    assert (s + [y])[..|s|] == s;
  }

  /** Inserting keeps the order among elements of each key: x lands behind
      every earlier element with its key. */
  lemma {:induction false} InsertStable(s: seq<Candidate>, x: Candidate, c: real, rr: real)
    ensures WithKey(Insert(s, x), c, rr) == WithKey(s, c, rr) + (if HasKey(x, c, rr) then [x] else [])
  {
    if s == [] {
      assert WithKey([x], c, rr) == WithKey([], c, rr) + (if HasKey(x, c, rr) then [x] else []) by {
        WithKeySnoc([], x, c, rr);
      }
    } else {
      var init, last := s[..|s| - 1], s[|s| - 1];
      assert s == init + [last];
      if RanksAbove(x, last) {
        InsertStable(init, x, c, rr);
        WithKeySnoc(Insert(init, x), last, c, rr);
        WithKeySnoc(init, last, c, rr);
      } else {
        WithKeySnoc(s, x, c, rr);
      }
    }
  }

  /** The sort is stable: the elements of each key appear in their input order. */
  lemma {:induction false} SortStable(s: seq<Candidate>, c: real, rr: real)
    ensures WithKey(SortByRank(s), c, rr) == WithKey(s, c, rr)
  {
    if s != [] {
      var init, last := s[..|s| - 1], s[|s| - 1];
      assert s == init + [last];
      assert SortByRank(s) == Insert(SortByRank(init), last);
      SortStable(init, c, rr);
      InsertStable(SortByRank(init), last, c, rr);
      WithKeySnoc(init, last, c, rr);
    }
  }

  /** Sortedness and the permutation property together: the sorted list's
      first element ranks at least as high as every input element. */
  lemma SortHeadIsTop(s: seq<Candidate>)
    requires |s| > 0
    ensures forall y :: y in s ==> !RanksAbove(y, SortByRank(s)[0])
  {
    var r := SortByRank(s);
    forall y | y in s
      ensures !RanksAbove(y, r[0])
    {
      assert y in multiset(r);
      var j :| 0 <= j < |r| && r[j] == y;
      if j > 0 {
        assert !RanksAbove(r[j], r[0]);
      }
    }
  }

  /** The displayed part of a side's list: its first n entries. */
  function Shown(s: seq<Candidate>, n: nat): (r: seq<Candidate>)
    ensures |r| <= n && |r| <= |s|
    ensures |r| == if |s| <= n then |s| else n
    ensures r == s[..|r|]
  {
    if |s| <= n then s else s[..n]
  }

  /** Truncating a sorted list shows only its top: every displayed entry
      ranks at least as high as every hidden one. */
  lemma ShownIsTop(s: seq<Candidate>, n: nat)
    requires SortedByRank(s)
    ensures SortedByRank(Shown(s, n))
    ensures forall i, j :: 0 <= i < |Shown(s, n)| <= j < |s| ==> !RanksAbove(s[j], Shown(s, n)[i])
  {
  }
}
