// Replant-all: the order it spends in, and that spending greedily in that order is the
// best any affordable choice of plots could do.
module Replant {
  import opened Common
  import opened FarmState
  import opened FarmActions
  import C = Content

  // ---- The order ----

  // Dearest first, ties in plot order.
  predicate InSpendingOrder(cands: seq<Candidate>) {
    forall i, j :: 0 <= i < j < |cands| ==>
      cands[i].cost > cands[j].cost || (cands[i].cost == cands[j].cost && cands[i].plot < cands[j].plot)
  }

  predicate InPlotOrder(cands: seq<Candidate>) {
    forall i, j :: 0 <= i < j < |cands| ==> cands[i].plot < cands[j].plot
  }

  lemma {:induction false} InsertAdds(c: Candidate, cands: seq<Candidate>)
    ensures multiset(Insert(c, cands)) == multiset(cands) + multiset{c}
    ensures forall x :: x in Insert(c, cands) ==> x == c || x in cands
  {
    if cands != [] && cands[|cands| - 1].cost < c.cost {
      var front, last := cands[..|cands| - 1], cands[|cands| - 1];
      assert cands == front + [last];
      InsertAdds(c, front);
    }
  }

  lemma {:induction false} InsertKeepsOrder(c: Candidate, cands: seq<Candidate>)
    requires InSpendingOrder(cands) && forall i :: 0 <= i < |cands| ==> cands[i].plot < c.plot
    ensures InSpendingOrder(Insert(c, cands))
  {
    if cands != [] && cands[|cands| - 1].cost < c.cost {
      var front, last := cands[..|cands| - 1], cands[|cands| - 1];
      InsertKeepsOrder(c, front);
      InsertAdds(c, front);
      var put := Insert(c, front);
      forall i | 0 <= i < |put|
        ensures put[i].cost > last.cost || (put[i].cost == last.cost && put[i].plot < last.plot)
      {
        assert put[i] in put;
      }
    }
  }

  lemma {:induction false} DearestFirstSorts(cands: seq<Candidate>)
    requires InPlotOrder(cands)
    ensures InSpendingOrder(DearestFirst(cands)) && multiset(DearestFirst(cands)) == multiset(cands)
  {
    if cands != [] {
      var front, last := cands[..|cands| - 1], cands[|cands| - 1];
      assert cands == front + [last];
      DearestFirstSorts(front);
      var sorted := DearestFirst(front);
      forall i | 0 <= i < |sorted| ensures sorted[i].plot < last.plot {
        assert sorted[i] in multiset(sorted);
        var j :| 0 <= j < |front| && front[j] == sorted[i];
        assert cands[j].plot < cands[|cands| - 1].plot;
      }
      InsertKeepsOrder(last, sorted);
      InsertAdds(last, sorted);
    }
  }

  // The candidates are exactly the empty plots with a plantable remembered crop.
  lemma {:induction false} CandidatesAre(e: Env, s: Save, n: nat, now: int)
    requires n <= |s.plots|
    ensures var cands := Candidates(e, s, n, now);
      && InPlotOrder(cands)
      && (forall c :: c in cands ==> c.plot < n && CandidateAt(e, s, c.plot, now) == Some(c))
      && (forall i :: 0 <= i < n && CandidateAt(e, s, i, now).Some? ==> CandidateAt(e, s, i, now).value in cands)
  {
    hide CandidateAt;
    if n > 0 {
      CandidatesAre(e, s, n - 1, now);
      CandidateSits(e, s, n - 1, now);
    }
  }

  lemma CandidateSits(e: Env, s: Save, i: nat, now: int)
    requires i < |s.plots|
    ensures var c := CandidateAt(e, s, i, now);
      c.Some? ==> c.value.plot == i && s.plots[i].crop == "" && c.value.crop == Remembered(s, s.plots[i])
  {
    hide SeedCost, Unlocked, SeasonalPlantable;
  }

  // ---- The choice ----

  // What buying while the wallet lasts picks from a list.
  function Greedy(coins: int, cands: seq<Candidate>): (r: seq<bool>)
    ensures |r| == |cands|
    decreases |cands|
  {
    if cands == [] then []
    else if coins < cands[0].cost then [false] + Greedy(coins, cands[1..])
    else [true] + Greedy(coins - cands[0].cost, cands[1..])
  }

  function CostOf(cands: seq<Candidate>, pick: seq<bool>): nat
    requires |pick| == |cands|
    decreases |cands|
  {
    if cands == [] then 0 else (if pick[0] then cands[0].cost else 0) + CostOf(cands[1..], pick[1..])
  }

  // At the first place they differ, b plants and a does not.
  predicate NoBetter(a: seq<bool>, b: seq<bool>)
    requires |a| == |b|
    decreases |a|
  {
    a == [] || (a[0] == b[0] && NoBetter(a[1..], b[1..])) || (!a[0] && b[0])
  }

  lemma {:induction false} GreedyIsBest(coins: int, cands: seq<Candidate>, pick: seq<bool>)
    requires |pick| == |cands| && CostOf(cands, pick) <= coins
    ensures NoBetter(pick, Greedy(coins, cands))
    decreases |cands|
  {
    if cands != [] {
      if pick[0] == (coins >= cands[0].cost) {
        GreedyIsBest(if pick[0] then coins - cands[0].cost else coins, cands[1..], pick[1..]);
      }
    }
  }

  lemma {:induction false} GreedyAffords(coins: int, cands: seq<Candidate>)
    requires coins >= 0
    ensures CostOf(cands, Greedy(coins, cands)) <= coins
    ensures forall k :: 0 <= k < |cands| && !Greedy(coins, cands)[k] ==>
              cands[k].cost > coins - CostOf(cands, Greedy(coins, cands))
    decreases |cands|
  {
    if cands != [] {
      var left := if coins < cands[0].cost then coins else coins - cands[0].cost;
      GreedyAffords(left, cands[1..]);
      var pick := Greedy(coins, cands);
      assert pick[1..] == Greedy(left, cands[1..]);
      forall k | 0 <= k < |cands| && !pick[k] ensures cands[k].cost > coins - CostOf(cands, pick) {
        if k > 0 {
          assert pick[k] == pick[1..][k - 1] && cands[k] == cands[1..][k - 1];
        }
      }
    }
  }

  // ---- The sweep ----

  predicate DistinctPlots(cands: seq<Candidate>) {
    forall i, j :: 0 <= i < j < |cands| ==> cands[i].plot != cands[j].plot
  }

  predicate Fit(s: Save, cands: seq<Candidate>) {
    DistinctPlots(cands) && forall c :: c in cands ==> c.plot < |s.plots|
  }

  lemma SowOne(s: Save, c: Candidate, now: int)
    requires c.plot < |s.plots|
    ensures var t := Sow(s, c, now);
      && |t.plots| == |s.plots| && t.coins == (if s.coins < c.cost then s.coins else s.coins - c.cost)
      && t.plots[c.plot] == (if s.coins < c.cost then s.plots[c.plot] else Planted(s.plots[c.plot], c.crop, now))
      && (forall i :: 0 <= i < |s.plots| && i != c.plot ==> t.plots[i] == s.plots[i])
  {
  }

  lemma FitRest(s: Save, cands: seq<Candidate>, now: int)
    requires Fit(s, cands) && cands != []
    ensures cands[0].plot < |s.plots| && Fit(Sow(s, cands[0], now), cands[1..])
  {
    assert cands[0] in cands;
    assert forall c :: c in cands[1..] ==> c in cands;
  }

  // A plot no candidate names is left alone.
  lemma {:induction false} SowAllElsewhere(s: Save, cands: seq<Candidate>, now: int, i: nat)
    requires Fit(s, cands) && i < |s.plots| && forall k :: 0 <= k < |cands| ==> cands[k].plot != i
    ensures |SowAll(s, cands, now).plots| == |s.plots| && SowAll(s, cands, now).plots[i] == s.plots[i]
    decreases |cands|
  {
    hide Sow, Fit;
    if cands != [] {
      FitRest(s, cands, now);
      SowOne(s, cands[0], now);
      assert cands[0].plot != i;
      SowAllElsewhere(Sow(s, cands[0], now), cands[1..], now, i);
    }
  }

  // A candidate's plot is planted exactly when the greedy choice has it.
  lemma {:induction false} SowAllPlants(s: Save, cands: seq<Candidate>, now: int, k: nat)
    requires Fit(s, cands) && k < |cands|
    ensures |SowAll(s, cands, now).plots| == |s.plots| && cands[k].plot < |s.plots|
    ensures var i := cands[k].plot;
      SowAll(s, cands, now).plots[i]
      == if Greedy(s.coins, cands)[k] then Planted(s.plots[i], cands[k].crop, now) else s.plots[i]
    decreases |cands|
  {
    hide Sow, Planted;
    FitRest(s, cands, now);
    SowOne(s, cands[0], now);
    assert cands[k] in cands;
    var t, rest := Sow(s, cands[0], now), cands[1..];
    if k == 0 {
      assert forall j :: 0 <= j < |rest| ==> rest[j] == cands[j + 1];
      SowAllElsewhere(t, rest, now, cands[0].plot);
    } else {
      assert rest[k - 1] == cands[k];
      SowAllPlants(t, rest, now, k - 1);
    }
  }

  lemma {:induction false} SowAllPays(s: Save, cands: seq<Candidate>, now: int)
    requires Fit(s, cands)
    ensures SowAll(s, cands, now).coins == s.coins - CostOf(cands, Greedy(s.coins, cands))
    ensures |SowAll(s, cands, now).plots| == |s.plots|
    decreases |cands|
  {
    hide Sow, Fit;
    if cands != [] {
      FitRest(s, cands, now);
      SowOne(s, cands[0], now);
      var t := Sow(s, cands[0], now);
      assert Greedy(s.coins, cands)[1..] == Greedy(t.coins, cands[1..]);
      SowAllPays(t, cands[1..], now);
    }
  }

  // Replant-all over the whole farm: it considers every empty plot whose remembered crop
  // can be planted, dearest first and in plot order; its choice is affordable and no
  // affordable choice beats it; what it leaves short still costs more than is left; it
  // pays exactly for what it plants; every other plot, busy ones included, is as it was.
  lemma ReplantAllIsGreedy(e: Env, s: Save, now: int) returns (order: seq<Candidate>)
    requires s.coins >= 0
    ensures InSpendingOrder(order) && Fit(s, order)
    ensures forall i :: 0 <= i < |s.plots| ==>
              (CandidateAt(e, s, i, now).Some? <==> exists k :: 0 <= k < |order| && order[k].plot == i)
    ensures forall k :: 0 <= k < |order| ==>
              order[k].plot < |s.plots| && CandidateAt(e, s, order[k].plot, now) == Some(order[k])
    ensures var r, pick := DoReplantAll(e, s, now), Greedy(s.coins, order);
      && 0 <= r.coins == s.coins - CostOf(order, pick) && |r.plots| == |s.plots|
      && (forall k :: 0 <= k < |order| ==>
            var i := order[k].plot;
            r.plots[i] == if pick[k] then Planted(s.plots[i], order[k].crop, now) else s.plots[i])
      && (forall k :: 0 <= k < |order| && !pick[k] ==> order[k].cost > r.coins)
      && (forall i :: 0 <= i < |s.plots| && CandidateAt(e, s, i, now).None? ==> r.plots[i] == s.plots[i])
      && (forall other: seq<bool> :: |other| == |order| && CostOf(order, other) <= s.coins ==> NoBetter(other, pick))
  {
    hide CandidateAt, Candidates, DearestFirst, SowAll, Planted, NoBetter, Greedy, CostOf;
    var cands := Candidates(e, s, |s.plots|, now);
    order := DearestFirst(cands);
    CandidatesAre(e, s, |s.plots|, now);
    DearestFirstSorts(cands);
    SameMembers(order, cands);
    SortedIsDistinct(e, s, order, now);
    SowAllPays(s, order, now);
    forall k | 0 <= k < |order|
      ensures DoReplantAll(e, s, now).plots[order[k].plot]
           == if Greedy(s.coins, order)[k] then Planted(s.plots[order[k].plot], order[k].crop, now)
              else s.plots[order[k].plot]
    {
      SowAllPlants(s, order, now, k);
    }
    forall i | 0 <= i < |s.plots| && CandidateAt(e, s, i, now).None?
      ensures DoReplantAll(e, s, now).plots[i] == s.plots[i]
    {
      SowAllElsewhere(s, order, now, i);
    }
    GreedyAffords(s.coins, order);
    forall other: seq<bool> | |other| == |order| && CostOf(order, other) <= s.coins
      ensures NoBetter(other, Greedy(s.coins, order))
    {
      GreedyIsBest(s.coins, order, other);
    }
    forall i | 0 <= i < |s.plots|
      ensures CandidateAt(e, s, i, now).Some? <==> exists k :: 0 <= k < |order| && order[k].plot == i
    {
      CandidateSits(e, s, i, now);
    }
  }

  lemma SameMembers(a: seq<Candidate>, b: seq<Candidate>)
    requires multiset(a) == multiset(b)
    ensures forall c :: c in a <==> c in b
  {
    forall c ensures c in a <==> c in b {
      assert c in a <==> c in multiset(a);
      assert c in b <==> c in multiset(b);
    }
  }

  lemma SortedIsDistinct(e: Env, s: Save, order: seq<Candidate>, now: int)
    requires InSpendingOrder(order)
    requires forall c :: c in order ==> c.plot < |s.plots| && CandidateAt(e, s, c.plot, now) == Some(c)
    ensures DistinctPlots(order)
  {
    hide CandidateAt;
    forall i, j | 0 <= i < j < |order| ensures order[i].plot != order[j].plot {
      assert order[i] in order && order[j] in order;
    }
  }
}
