// A rebirth pays exactly what its screen previewed.
module Rebirth {
  import opened Common
  import opened Money
  import opened FarmState
  import opened FarmAdvance
  import opened FarmActions
  import opened Scarecrows
  import C = Content

  // Every coin in the pouches, with no bound.
  function PouchSum(pouches: seq<int>): int {
    if pouches == [] then 0 else pouches[0] + PouchSum(pouches[1..])
  }

  lemma {:induction false} PouchTotalCaps(pouches: seq<int>, total: int)
    requires Coins(total) && forall j :: 0 <= j < |pouches| ==> Coins(pouches[j])
    ensures PouchTotal(pouches, total) == Min(total + PouchSum(pouches), MAX) && PouchSum(pouches) >= 0
    decreases |pouches|
  {
    if pouches != [] {
      PouchTotalCaps(pouches[1..], SatAdd(total, pouches[0]));
    }
  }

  lemma CollectOne(s: Save, i: nat)
    requires i < |s.pouches| && Coins(s.runEarnings) && PouchesHold(s)
    ensures var o := DoCollectScarecrow(s, i);
      var t := if o.Ok? then o.value else s;
      && t.runEarnings == Min(s.runEarnings + s.pouches[i], MAX) && Coins(t.runEarnings)
      && t.pouches == s.pouches[i := 0] && t.starseeds == s.starseeds && t.upgrades == s.upgrades
      && CollectFrom(s, i) == CollectFrom(t, i + 1)
  {
    hide CheckCompletion;
    if s.pouches[i] == 0 {
      assert s.pouches[i := 0] == s.pouches;
    } else {
      CompletionIsElsewhere(CreditedPouch(s, i));
    }
  }

  function CreditedPouch(s: Save, i: nat): Save
    requires i < |s.pouches|
  {
    var amount := s.pouches[i];
    s.(pouches := s.pouches[i := 0], coins := SatAdd(s.coins, amount), runEarnings := SatAdd(s.runEarnings, amount),
       lifetimeEarnings := SatAdd(s.lifetimeEarnings, amount),
       books := s.books.(earned := s.books.earned + amount),
       contractEarnings := SatAdd(s.contractEarnings, amount))
  }

  lemma CompletionIsElsewhere(s: Save)
    ensures var r := CheckCompletion(s);
      r.runEarnings == s.runEarnings && r.pouches == s.pouches && r.starseeds == s.starseeds && r.upgrades == s.upgrades
  {
  }

  // Emptying the pouches one credit at a time saturates where their total would.
  lemma {:induction false} CollectingBanks(s: Save, i: nat)
    requires i <= |s.pouches| && Coins(s.runEarnings) && PouchesHold(s)
    ensures var t := CollectFrom(s, i);
      && t.runEarnings == Min(s.runEarnings + PouchSum(s.pouches[i..]), MAX) && PouchSum(s.pouches[i..]) >= 0
      && t.starseeds == s.starseeds && t.upgrades == s.upgrades
      && (forall j :: 0 <= j < |s.pouches| ==> t.pouches[j] == if j < i then s.pouches[j] else 0)
    decreases |s.pouches| - i
  {
    hide DoCollectScarecrow;
    if i < |s.pouches| {
      CollectOne(s, i);
      var o := DoCollectScarecrow(s, i);
      var t := if o.Ok? then o.value else s;
      assert s.pouches[i..][1..] == s.pouches[i + 1..] == t.pouches[i + 1..];
      CollectingBanks(t, i + 1);
    }
  }

  lemma {:induction false} NothingGathered(pouches: seq<int>)
    requires forall j :: 0 <= j < |pouches| ==> pouches[j] == 0
    ensures PouchSum(pouches) == 0
  {
    if pouches != [] {
      NothingGathered(pouches[1..]);
    }
  }

  // What the screen promises before is what is paid after, saturated or not.
  lemma RebirthPaysThePreview(e: Env, s: Save, now: int)
    requires Coins(s.runEarnings) && PouchesHold(s)
    ensures RebirthEarnings(CollectFrom(s, 0)) == RebirthEarnings(s)
    ensures DoRebirth(e, s, now).Ok? <==> CanRebirth(e, s)
    ensures CanRebirth(e, s) ==> DoRebirth(e, s, now).value.starseeds == SatAdd(s.starseeds, PrestigeGain(e, s))
  {
    hide CheckCompletion, CollectFrom, FloorSqrt, StartCoins;
    var t := CollectFrom(s, 0);
    CollectingBanks(s, 0);
    assert s.pouches[0..] == s.pouches;
    PouchTotalCaps(s.pouches, 0);
    PouchTotalCaps(t.pouches, 0);
    NothingGathered(t.pouches);
    CompletionIsElsewhere(Reborn(e, t, PrestigeGain(e, t), StartCoins(e.content.upgrades, t.upgrades, e.content.start.coins), now));
  }
}
