/**
 Ranking of nearby-place candidates: keep those the provider is at least 10%
 confident about, most likely first.
 */
module Ranking {
  import opened Provider

  /** The smallest likelihood a recommended place may have. */
  const MinLikelihood: real := 0.1

  predicate Likely(c: PlaceLikelihood) {
    c.likelihood >= MinLikelihood
  }

  /** Most likely first: no candidate is followed by a more likely one. */
  predicate SortedDescending(s: seq<PlaceLikelihood>) {
    forall i, j :: 0 <= i < j < |s| ==> s[i].likelihood >= s[j].likelihood
  }

  /** The candidates whose likelihood reaches the threshold, equally likely ones in their original order. */
  function FilterLikely(s: seq<PlaceLikelihood>): (r: seq<PlaceLikelihood>)
    ensures forall c :: multiset(r)[c] == if Likely(c) then multiset(s)[c] else 0
    ensures forall c :: c in r <==> c in s && Likely(c)
    ensures |r| <= |s|
  {
    if |s| == 0 then []
    else
      assert s == [s[0]] + s[1..];
      if Likely(s[0]) then [s[0]] + FilterLikely(s[1..]) else FilterLikely(s[1..])
  }

  /** Inserts one candidate into a most-likely-first list, ahead of any equally likely one. */
  function Insert(c: PlaceLikelihood, s: seq<PlaceLikelihood>): (r: seq<PlaceLikelihood>)
    requires SortedDescending(s)
    ensures SortedDescending(r)
    ensures multiset(r) == multiset(s) + multiset{c}
  {
    if |s| == 0 then [c]
    else if c.likelihood >= s[0].likelihood then [c] + s
    else
      var rest := Insert(c, s[1..]);
      assert s == [s[0]] + s[1..];
      HeadDominates(s[0], c, s[1..], rest);
      [s[0]] + rest
  }

  /** A candidate at least as likely as every member of a list also dominates any rearrangement of it. */
  lemma HeadDominates(h: PlaceLikelihood, c: PlaceLikelihood, tail: seq<PlaceLikelihood>, rest: seq<PlaceLikelihood>)
    requires h.likelihood >= c.likelihood
    requires forall j :: 0 <= j < |tail| ==> h.likelihood >= tail[j].likelihood
    requires multiset(rest) == multiset(tail) + multiset{c}
    ensures forall j :: 0 <= j < |rest| ==> h.likelihood >= rest[j].likelihood
  {
    forall j | 0 <= j < |rest|
      ensures h.likelihood >= rest[j].likelihood
    {
      assert rest[j] in multiset(rest);
      if rest[j] != c {
        assert rest[j] in multiset(tail);
      }
    }
  }

  /** Sorts candidates most likely first. */
  function SortDescending(s: seq<PlaceLikelihood>): (r: seq<PlaceLikelihood>)
    ensures SortedDescending(r)
    ensures multiset(r) == multiset(s)
  {
    if |s| == 0 then []
    else
      assert s == [s[0]] + s[1..];
      Insert(s[0], SortDescending(s[1..]))
  }

  /** The recommendation ranking: filter by the threshold, then sort most likely first. */
  function Rank(s: seq<PlaceLikelihood>): (r: seq<PlaceLikelihood>)
    ensures SortedDescending(r)
    ensures forall c :: multiset(r)[c] == if Likely(c) then multiset(s)[c] else 0
    ensures forall c :: c in r <==> c in s && Likely(c)
  {
    var kept := FilterLikely(s);
    var sorted := SortDescending(kept);
    assert forall c :: c in sorted <==> c in multiset(kept);
    sorted
  }

  /** The ranking keeps exactly as many candidates as reach the threshold. */
  lemma {:induction false} RankLength(s: seq<PlaceLikelihood>)
    ensures |Rank(s)| == CountLikely(s)
  {
    calc {
      |Rank(s)|;
      |multiset(Rank(s))|;
      { assert multiset(Rank(s)) == multiset(FilterLikely(s)); }
      |multiset(FilterLikely(s))|;
      |FilterLikely(s)|;
      { FilterLikelyCount(s); }
      CountLikely(s);
    }
  }

  /** How many candidates reach the threshold. */
  function CountLikely(s: seq<PlaceLikelihood>): nat {
    if |s| == 0 then 0 else (if Likely(s[0]) then 1 else 0) + CountLikely(s[1..])
  }

  lemma {:induction false} FilterLikelyCount(s: seq<PlaceLikelihood>)
    ensures |FilterLikely(s)| == CountLikely(s)
  {
    if |s| > 0 {
      FilterLikelyCount(s[1..]);
    }
  }

  /** When no candidate reaches the threshold, nothing is recommended. */
  lemma {:induction false} RankOfUnlikelyIsEmpty(s: seq<PlaceLikelihood>)
    requires forall i :: 0 <= i < |s| ==> !Likely(s[i])
    ensures Rank(s) == []
  {
  }

  /** The candidates of exactly likelihood `v`, in their order in `s`. */
  function Tied(s: seq<PlaceLikelihood>, v: real): seq<PlaceLikelihood> {
    if |s| == 0 then [] else (if s[0].likelihood == v then [s[0]] else []) + Tied(s[1..], v)
  }

  lemma {:induction false} TiedConcat(a: seq<PlaceLikelihood>, b: seq<PlaceLikelihood>, v: real)
    ensures Tied(a + b, v) == Tied(a, v) + Tied(b, v)
  {
    if |a| > 0 {
      assert (a + b)[1..] == a[1..] + b;
      TiedConcat(a[1..], b, v);
    } else {
      assert a + b == b;
    }
  }

  /** The filter keeps every equally likely group that reaches the threshold in input order. */
  lemma {:induction false} FilterKeepsTieOrder(s: seq<PlaceLikelihood>, v: real)
    ensures Tied(FilterLikely(s), v) == if v >= MinLikelihood then Tied(s, v) else []
  {
    if |s| > 0 {
      FilterKeepsTieOrder(s[1..], v);
      if Likely(s[0]) {
        TiedConcat([s[0]], FilterLikely(s[1..]), v);
      }
    }
  }

  /** Insertion puts the new candidate ahead of every equally likely one already there. */
  lemma {:induction false} InsertTied(c: PlaceLikelihood, s: seq<PlaceLikelihood>, v: real)
    requires SortedDescending(s)
    ensures Tied(Insert(c, s), v) == (if c.likelihood == v then [c] else []) + Tied(s, v)
  {
    var own := if c.likelihood == v then [c] else [];
    if |s| == 0 {
      assert Insert(c, s) == [c];
    } else if c.likelihood >= s[0].likelihood {
      assert Insert(c, s) == [c] + s;
      TiedConcat([c], s, v);
    } else {
      var head, tail := [s[0]], s[1..];
      assert s == head + tail;
      assert Insert(c, s) == head + Insert(c, tail);
      InsertTied(c, tail, v);
      TiedConcat(head, Insert(c, tail), v);
      TiedConcat(head, tail, v);
      // c is less likely than s[0], so at most one of the two contributes to the group of v
      assert own == [] || Tied(head, v) == [];
    }
  }

  /** The sort is stable: equally likely candidates keep their input order. */
  lemma {:induction false} SortKeepsTieOrder(s: seq<PlaceLikelihood>, v: real)
    ensures Tied(SortDescending(s), v) == Tied(s, v)
  {
    if |s| > 0 {
      SortKeepsTieOrder(s[1..], v);
      InsertTied(s[0], SortDescending(s[1..]), v);
    }
  }

  /** Among equally likely recommendations, the provider's order is kept. */
  lemma {:induction false} RankKeepsTieOrder(s: seq<PlaceLikelihood>, v: real)
    ensures Tied(Rank(s), v) == if v >= MinLikelihood then Tied(s, v) else []
  {
    SortKeepsTieOrder(FilterLikely(s), v);
    FilterKeepsTieOrder(s, v);
  }
}
