// The cheapest unlocked crop, the free planting it allows a broke farm, and the
// achievements a check records.
module Mercy {
  import opened Common
  import opened Money
  import opened Samples
  import opened FarmState
  import opened FarmAdvance
  import opened FarmActions
  import C = Content

  // ---- The cheapest unlocked crop ----

  // k is the first index of the least seed cost among unlocked crops.
  predicate FirstCheapest(s: Save, crops: seq<C.Crop>, k: nat) {
    && k < |crops| && Unlocked(s, crops[k].unlock)
    && (forall j :: 0 <= j < |crops| && Unlocked(s, crops[j].unlock) ==> crops[k].seedCost <= crops[j].seedCost)
    && (forall j :: 0 <= j < k && Unlocked(s, crops[j].unlock) ==> crops[k].seedCost < crops[j].seedCost)
  }

  // The scan from any best so far: it stays, or gives way to the first cheapest of the
  // rest, which is then strictly cheaper.
  lemma {:induction false} ScanFinds(s: Save, crops: seq<C.Crop>, best: Option<C.Crop>) returns (k: nat)
    ensures var r := CheapestUnlocked(s, crops, best);
      || (r == best && forall j :: 0 <= j < |crops| && Unlocked(s, crops[j].unlock) ==>
                         best.Some? && best.value.seedCost <= crops[j].seedCost)
      || (FirstCheapest(s, crops, k) && r == Some(crops[k]) && (best.Some? ==> crops[k].seedCost < best.value.seedCost))
    decreases |crops|
  {
    hide Unlocked;
    k := 0;
    if crops != [] {
      var next := if Unlocked(s, crops[0].unlock) && (best.None? || crops[0].seedCost < best.value.seedCost)
                  then Some(crops[0]) else best;
      var m := ScanFinds(s, crops[1..], next);
      assert forall j :: 1 <= j < |crops| ==> crops[j] == crops[1..][j - 1];
      k := if CheapestUnlocked(s, crops[1..], next) == next then 0 else m + 1;
    }
  }

  // Nothing is found exactly when nothing is unlocked; otherwise the first of the
  // unlocked crops with the least seed cost.
  lemma TheCheapestIsCheapest(s: Save, crops: seq<C.Crop>) returns (k: nat)
    ensures var r := CheapestUnlocked(s, crops, None);
      if r.None? then forall j :: 0 <= j < |crops| ==> !Unlocked(s, crops[j].unlock)
      else FirstCheapest(s, crops, k) && r.value == crops[k]
  {
    hide Unlocked;
    k := ScanFinds(s, crops, None);
  }

  // ---- Who can plant on an empty farm ----

  ghost predicate CanPlant(e: Env, s: Save, now: int) {
    exists i: int, id: string :: DoPlant(e, s, i, id, now).Ok?
  }

  // An unlocked crop in season that the wallet covers.
  predicate Affordable(e: Env, s: Save, crop: C.Crop, now: int) {
    Unlocked(s, crop.unlock) && SeasonalPlantable(e, crop.unlock, now) && s.coins >= SeedCost(e, s, crop)
  }

  predicate CheapestInSeason(e: Env, s: Save, now: int) {
    var cheapest := CheapestUnlocked(s, e.content.crops, None);
    cheapest.Some? && SeasonalPlantable(e, cheapest.value.unlock, now)
  }

  lemma {:induction false} CropFound(crops: seq<C.Crop>, k: nat)
    requires k < |crops| && forall i, j :: 0 <= i < j < |crops| ==> crops[i].id != crops[j].id
    ensures C.CropIn(crops, crops[k].id) == Some(crops[k])
  {
    if k > 0 {
      assert crops[0].id != crops[k].id;
      CropFound(crops[1..], k - 1);
    }
  }

  // The mercy rule asks for the cheapest unlocked crop whatever the season, and planting
  // then asks for the season. So on a farm with nothing planted some Plant is accepted
  // exactly when an unlocked crop in season is affordable or the cheapest is in season.
  lemma AnEmptyFarmCanPlantExactlyWhen(e: Env, s: Save, now: int)
    requires C.CropsOk(e.content) && |s.plots| >= 1 && AllPlotsEmpty(s)
    ensures CanPlant(e, s, now)
      <==> (exists k :: 0 <= k < |e.content.crops| && Affordable(e, s, e.content.crops[k], now)) || CheapestInSeason(e, s, now)
  {
    hide Unlocked, SeasonalPlantable, SeedCost;
    var crops := e.content.crops;
    var cheapest := TheCheapestIsCheapest(s, crops);
    if CanPlant(e, s, now) {
      var i: int, id: string :| DoPlant(e, s, i, id, now).Ok?;
      PlantedThen(e, s, i, id, now);
    }
    if CheapestInSeason(e, s, now) {
      CropFound(crops, cheapest);
      assert DoPlant(e, s, 0, crops[cheapest].id, now).Ok?;
    }
    forall k | 0 <= k < |crops| && Affordable(e, s, crops[k], now) ensures CanPlant(e, s, now) {
      CropFound(crops, k);
      assert DoPlant(e, s, 0, crops[k].id, now).Ok?;
    }
  }

  lemma PlantedThen(e: Env, s: Save, i: int, id: string, now: int)
    requires C.CropsOk(e.content) && DoPlant(e, s, i, id, now).Ok?
    ensures (exists k :: 0 <= k < |e.content.crops| && Affordable(e, s, e.content.crops[k], now)) || CheapestInSeason(e, s, now)
  {
    hide Unlocked, SeasonalPlantable, SeedCost;
    var crops := e.content.crops;
    var crop := C.CropIn(crops, id).value;
    var k :| 0 <= k < |crops| && crops[k] == crop;
    if s.coins < SeedCost(e, s, crop) {
      var m := TheCheapestIsCheapest(s, crops);
      CropFound(crops, m);
    } else {
      assert Affordable(e, s, crops[k], now);
    }
  }

  // A seasonal crop that is the cheapest: out of season a new farm with an empty wallet
  // can plant nothing.
  lemma ANewFarmIsStuck(e: Env, seed: nat, now: int)
    requires e.content == Sample(Wheat(1, 2, C.Unlock(C.InSeason, 0, "", "halloween", 0)), 10, [], C.Start(0, 1), C.Golden(0, 10))
    requires e.season(now) != "halloween"
    ensures C.Validated(e.content) && AllPlotsEmpty(New(e, seed, now)) && !CanPlant(e, New(e, seed, now), now)
  {
    var seasonal := C.Unlock(C.InSeason, 0, "", "halloween", 0);
    SampleIsValid(Wheat(1, 2, seasonal), 10, [], C.Start(0, 1), C.Golden(0, 10));
    var s := New(e, seed, now);
    AnEmptyFarmCanPlantExactlyWhen(e, s, now);
    var k := TheCheapestIsCheapest(s, e.content.crops);
    assert Unlocked(s, e.content.crops[0].unlock) && e.content.crops[0].seedCost == 1;
    assert k == 0;
  }

  // ---- Achievements ----

  predicate UniqueIds(items: seq<C.Achievement>) {
    forall i, j :: 0 <= i < j < |items| ==> items[i].id != items[j].id
  }

  predicate NewlyMet(s: Save, a: C.Achievement) {
    a.id !in s.achievements && Met(s, a)
  }

  predicate Members(s: Save, items: seq<C.Achievement>, ks: seq<nat>) {
    forall p :: 0 <= p < |ks| ==> ks[p] < |items| && NewlyMet(s, items[ks[p]])
  }

  predicate Ascending(ks: seq<nat>) {
    forall p, q :: 0 <= p < q < |ks| ==> ks[p] < ks[q]
  }

  predicate Complete(s: Save, items: seq<C.Achievement>, ks: seq<nat>) {
    forall j :: 0 <= j < |items| && NewlyMet(s, items[j]) ==> j in ks
  }

  // ks lists, in order, exactly the indices of the items newly met.
  predicate Lists(s: Save, items: seq<C.Achievement>, ks: seq<nat>) {
    Members(s, items, ks) && Ascending(ks) && Complete(s, items, ks)
  }

  // One check reports, in content order, exactly the achievements met and not yet recorded.
  lemma {:induction false} TheCheckReportsExactly(s: Save, items: seq<C.Achievement>, now: int) returns (ks: seq<nat>)
    requires UniqueIds(items)
    ensures var newly := CheckAchievements(s, items, now).1;
      Lists(s, items, ks) && |newly| == |ks| && (forall p :: 0 <= p < |ks| ==> newly[p] == items[ks[p]].id)
    decreases |items|
  {
    hide Met;
    ks := [];
    if items != [] {
      var t := if NewlyMet(s, items[0]) then s.(achievements := s.achievements[items[0].id := now]) else s;
      var rest := TheCheckReportsExactly(t, items[1..], now);
      NextLists(s, t, items, now, rest);
      ks := (if NewlyMet(s, items[0]) then [0] else []) + Later(rest);
    }
  }

  predicate Exactly(s: Save, items: seq<C.Achievement>, newly: seq<string>) {
    forall j :: 0 <= j < |items| ==> (items[j].id in newly <==> NewlyMet(s, items[j]))
  }

  // An id is reported exactly when its achievement is met and not recorded.
  lemma NewlyIsExact(s: Save, items: seq<C.Achievement>, now: int)
    requires UniqueIds(items)
    ensures Exactly(s, items, CheckAchievements(s, items, now).1)
  {
    hide NewlyMet;
    var newly := CheckAchievements(s, items, now).1;
    var ks := TheCheckReportsExactly(s, items, now);
    forall j | 0 <= j < |items| ensures items[j].id in newly <==> NewlyMet(s, items[j]) {
      if NewlyMet(s, items[j]) {
        var p :| 0 <= p < |ks| && ks[p] == j;
        assert newly[p] == items[j].id;
      }
      if items[j].id in newly {
        var p :| 0 <= p < |newly| && newly[p] == items[j].id;
        assert items[ks[p]].id == items[j].id && ks[p] == j;
      }
    }
  }

  function Later(ks: seq<nat>): (r: seq<nat>)
    ensures |r| == |ks| && forall p :: 0 <= p < |ks| ==> r[p] == ks[p] + 1
  {
    seq(|ks|, p requires 0 <= p < |ks| => ks[p] + 1)
  }

  lemma NextLists(s: Save, t: Save, items: seq<C.Achievement>, now: int, rest: seq<nat>)
    requires UniqueIds(items) && items != [] && Lists(t, items[1..], rest)
    requires t == if NewlyMet(s, items[0]) then s.(achievements := s.achievements[items[0].id := now]) else s
    ensures Lists(s, items, (if NewlyMet(s, items[0]) then [0] else []) + Later(rest))
  {
    hide NewlyMet, Members, Complete;
    forall j | 1 <= j < |items| ensures NewlyMet(t, items[j]) <==> NewlyMet(s, items[j]) {
      assert items[0].id != items[j].id;
      StillNew(s, items[0].id, now, items[j]);
    }
    NextMembers(s, t, items, rest);
    NextComplete(s, t, items, rest);
  }

  lemma NextMembers(s: Save, t: Save, items: seq<C.Achievement>, rest: seq<nat>)
    requires items != [] && Members(t, items[1..], rest)
    requires forall j :: 1 <= j < |items| ==> (NewlyMet(t, items[j]) <==> NewlyMet(s, items[j]))
    ensures Members(s, items, (if NewlyMet(s, items[0]) then [0] else []) + Later(rest))
  {
    hide NewlyMet;
    var first := if NewlyMet(s, items[0]) then [0] else [];
    var ks := first + Later(rest);
    forall p | |first| <= p < |ks| ensures ks[p] < |items| && NewlyMet(s, items[ks[p]]) {
      assert items[1..][rest[p - |first|]] == items[ks[p]];
    }
  }

  lemma NextComplete(s: Save, t: Save, items: seq<C.Achievement>, rest: seq<nat>)
    requires items != [] && Complete(t, items[1..], rest)
    requires forall j :: 1 <= j < |items| ==> (NewlyMet(t, items[j]) <==> NewlyMet(s, items[j]))
    ensures Complete(s, items, (if NewlyMet(s, items[0]) then [0] else []) + Later(rest))
  {
    hide NewlyMet;
    var first := if NewlyMet(s, items[0]) then [0] else [];
    var ks := first + Later(rest);
    forall j | 0 <= j < |items| && NewlyMet(s, items[j]) ensures j in ks {
      if j == 0 {
        assert ks[0] == 0;
      } else {
        assert items[1..][j - 1] == items[j];
        var p :| 0 <= p < |rest| && rest[p] == j - 1;
        assert ks[|first| + p] == j;
      }
    }
  }

  lemma StillNew(s: Save, id: string, now: int, a: C.Achievement)
    requires a.id != id
    ensures NewlyMet(s.(achievements := s.achievements[id := now]), a) <==> NewlyMet(s, a)
  {
    hide Met;
    RecordingChangesNoGoal(s, s.(achievements := s.achievements[id := now]), a);
  }

  // It records what it reports, now, and nothing else.
  lemma {:induction false} TheCheckRecordsExactly(s: Save, items: seq<C.Achievement>, now: int)
    ensures var (r, newly) := CheckAchievements(s, items, now);
      && (forall id :: id in r.achievements <==> id in s.achievements || id in newly)
      && (forall id :: id in newly ==> id !in s.achievements && r.achievements[id] == now)
      && (forall id :: id in s.achievements ==> r.achievements[id] == s.achievements[id])
    decreases |items|
  {
    hide Met;
    if items != [] {
      var t := if NewlyMet(s, items[0]) then s.(achievements := s.achievements[items[0].id := now]) else s;
      TheCheckRecordsExactly(t, items[1..], now);
      var (r, rest) := CheckAchievements(t, items[1..], now);
      if NewlyMet(s, items[0]) {
        assert CheckAchievements(s, items, now) == (r, [items[0].id] + rest);
        assert forall id :: id in [items[0].id] + rest <==> id == items[0].id || id in rest;
      } else {
        assert CheckAchievements(s, items, now) == (r, rest);
      }
    }
  }

  lemma {:induction false} NothingToReport(s: Save, items: seq<C.Achievement>, now: int)
    requires forall j :: 0 <= j < |items| ==> !NewlyMet(s, items[j])
    ensures CheckAchievements(s, items, now) == (s, [])
    decreases |items|
  {
    if items != [] {
      assert !NewlyMet(s, items[0]);
      NothingToReport(s, items[1..], now);
    }
  }

  // Checking again reports nothing.
  lemma ASecondCheckIsSilent(s: Save, items: seq<C.Achievement>, now: int, later: int)
    requires UniqueIds(items)
    ensures var r := CheckAchievements(s, items, now).0; CheckAchievements(r, items, later) == (r, [])
  {
    hide Met;
    var (r, newly) := CheckAchievements(s, items, now);
    var ks := TheCheckReportsExactly(s, items, now);
    TheCheckRecordsExactly(s, items, now);
    forall j | 0 <= j < |items| ensures !NewlyMet(r, items[j]) {
      RecordingChangesNoGoal(s, r, items[j]);
      if NewlyMet(s, items[j]) {
        var p :| 0 <= p < |ks| && ks[p] == j;
        assert newly[p] == items[j].id;
      }
    }
    NothingToReport(r, items, later);
  }

  lemma RecordingChangesNoGoal(s: Save, t: Save, a: C.Achievement)
    requires t == s.(achievements := t.achievements)
    ensures Met(t, a) <==> Met(s, a)
  {
  }
}
