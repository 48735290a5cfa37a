// Farms the server would load and run, on which a promise of the source's own comments
// or rules fails.
module Witnesses {
  import opened Common
  import opened Money
  import opened Content
  import opened Samples
  import opened FarmState
  import opened FarmAdvance
  import opened FarmActions
  import opened FastPath
  import opened Passage
  import opened Campaign
  import TimeSplit
  import Id = Identity

  const PLAIN := Golden(0, 10)

  function Farm(c: Content, season: int -> string, dice: (nat, nat) -> nat, unicode: Id.Unicode): Env {
    Env(c, season, dice, unicode)
  }

  // ---- Time on a farm with nothing automatic ----

  predicate Bare(c: Content) {
    c.events == [] && c.achievements == [] && c.critters.kinds == []
  }

  lemma {:induction false} ManualPlotsWait(e: Env, s: Save, i: nat, from: int, to: int, online: bool, ev: Report)
    requires Bare(e.content) && forall j :: i <= j < |s.plots| ==> !s.plots[j].autoHarvest
    ensures SettlePlots(e, s, i, from, to, online, ev).0 == s
    decreases |s.plots| - i
  {
    hide GrowSeconds, Cycles;
    if i < |s.plots| {
      var (t, ev') := SettlePlot(e, s, i, from, to, online, ev);
      ManualPlotsWait(e, t, i + 1, from, to, online, ev');
    }
  }

  // Only a parcel can come.
  predicate Waited(s: Save, r: Save) {
    r == s.(draws := r.draws, giftPending := r.giftPending, giftArrivedAt := r.giftArrivedAt, updatedAt := r.updatedAt)
  }

  lemma OnlyAParcelComes(e: Env, s: Save, to: int)
    requires Bare(e.content) && s.eventId == "" && s.pouches == [] && to > s.updatedAt
    ensures var (r, ev) := Prelude(e, s, to);
      r == s.(draws := r.draws, giftPending := r.giftPending, giftArrivedAt := r.giftArrivedAt) && ev.autoCoins == 0
  {
    hide GiftChance, Roll, FillPouches, ClockTarget, BlocksEvents, BlocksGifts;
    RollOnlyDraws(e, s, 10000);
  }

  lemma NothingHappens(e: Env, s: Save, to: int)
    requires Bare(e.content) && Unautomated(s.plots) && s.eventId == "" && s.pouches == []
    ensures var r := Advance(e, s, to).0; Waited(s, r) && r.updatedAt == Max(s.updatedAt, to)
  {
    hide Prelude, SettlePlots;
    if to > s.updatedAt {
      var (t, ev) := Prelude(e, s, to);
      OnlyAParcelComes(e, s, to);
      ManualPlotsWait(e, t, 0, s.updatedAt, to, to - s.updatedAt <= ONLINE_THRESHOLD, ev);
    }
  }

  // ---- Lean Season's land ----

  const CHEAP := Wheat(0, 100_000, OPEN)

  function OrchardFarm(): Content {
    Sample(CHEAP, 0, [Zone("orchard", 0, 1, OPEN)], Start(1, 6), PLAIN)
  }

  // Bare Hands done with one harvest, then an orchard bought under Lean Season.
  function OrchardRun(t: int): seq<Move> {
    [Intent(t, StartContract(BareHands)), Intent(t, Plant(0, "wheat")), Intent(t + 1, Harvest(0)),
     Intent(t + 1, StartContract(LeanSeason)), Intent(t + 1, BuyZone("orchard"))]
  }

  lemma NoTimeNoChange(e: Env, s: Save, a: Action)
    requires Bare(e.content)
    ensures Play(e, s, Intent(s.updatedAt, a)) == match Do(e, s, s.updatedAt, a) case Ok(r) => r case Err(_) => s
  {
    hide Do;
  }

  lemma OrchardStarts(e: Env, s: Save)
    requires e.content == OrchardFarm() && s.activeContract == NoContract && 0 <= s.contractsCompleted < 2 && s.rebirths == 0
    ensures var id := Definition(s.contractsCompleted);
      var r := Play(e, s, Intent(s.updatedAt, StartContract(id)));
      r == ResetGameplay(e, s, s.updatedAt).(contractsUnlocked := true, activeContract := id)
  {
    NoTimeNoChange(e, s, StartContract(Definition(s.contractsCompleted)));
    assert BaseGameComplete(e, s);
  }

  lemma OrchardPlants(e: Env, s: Save)
    requires e.content == OrchardFarm() && s.plots != [] && s.plots[0].crop == "" && s.coins >= 0 && s.eventId == ""
    ensures Play(e, s, Intent(s.updatedAt, Plant(0, "wheat")))
         == s.(plots := s.plots[0 := Planted(s.plots[0], "wheat", s.updatedAt)], lastCrop := "wheat")
  {
    hide MercyPlantEligible, Play, CropIn, SeedCost, Unlocked, SeasonalPlantable, Pay;
    NoTimeNoChange(e, s, Plant(0, "wheat"));
    WheatIsFirst(e.content.crops);
    WheatIsFree(e, s);
    PayNothing(s);
  }

  lemma WheatIsFree(e: Env, s: Save)
    requires s.eventId == ""
    ensures SeedCost(e, s, CHEAP) == 0 && Unlocked(s, CHEAP.unlock) && SeasonalPlantable(e, CHEAP.unlock, s.updatedAt)
  {
  }

  lemma WheatIsFirst(crops: seq<Crop>)
    requires crops != [] && crops[0].id == "wheat"
    ensures CropIn(crops, "wheat") == Some(crops[0])
  {
  }

  // A plot of ripe wheat under Bare Hands, with nothing earned yet.
  predicate WheatIsIn(e: Env, s: Save, planted: int) {
    && e.content == OrchardFarm() && s.plots == FreshPlots(e)[0 := Planted(EmptyPlot, "wheat", planted)]
    && s.activeContract == BareHands && s.contractsCompleted == 0 && s.contractEarnings == 0 && s.coins == 1
    && s.eventId == "" && s.pouches == [] && s.rebirths == 0 && s.lifetimeEarnings == 0 && s.lifetimeHarvests == 0
  }

  lemma WheatPays(e: Env, s: Save, planted: int, now: int)
    requires WheatIsIn(e, s, planted)
    ensures HarvestPayout(e, s, CHEAP, now) == (Yield(100_000, 0, false, false), s)
    ensures GrowSeconds(e, s, CHEAP) == 1
  {
  }

  lemma HundredThousandCompletes(s: Save)
    requires s.activeContract == BareHands && s.contractsCompleted == 0 && s.contractEarnings == 0
    ensures var r := Credit(s, 100_000);
      && r.activeContract == NoContract && r.contractsCompleted == 1 && r.rebirths == s.rebirths && Credit(r, 0) == r
      && r.lifetimeEarnings == SatAdd(s.lifetimeEarnings, 100_000) && r.lifetimeHarvests == s.lifetimeHarvests
  {
  }

  lemma OrchardHarvests(e: Env, s: Save)
    requires WheatIsIn(e, s, s.updatedAt)
    ensures var r := Play(e, s, Intent(s.updatedAt + 1, Harvest(0)));
      && r.activeContract == NoContract && r.contractsCompleted == 1 && r.rebirths == 0 && r.updatedAt == s.updatedAt + 1
      && r.lifetimeEarnings == 100_000 && r.lifetimeHarvests == 1
  {
    hide Advance, HarvestPayout, Credit, GrowSeconds;
    var now := s.updatedAt + 1;
    NothingHappens(e, s, now);
    var t := Advance(e, s, now).0;
    assert CropIn(e.content.crops, "wheat") == Some(CHEAP);
    WheatPays(e, t, s.updatedAt, now);
    HundredThousandCompletes(t);
  }

  lemma OrchardIsBought(e: Env, s: Save)
    requires e.content == OrchardFarm() && s.activeContract == LeanSeason && s.zones == {} && s.coins == 1
    ensures var r := Play(e, s, Intent(s.updatedAt, BuyZone("orchard")));
      r.activeContract == LeanSeason && |r.plots| == |s.plots| + 1
  {
    NoTimeNoChange(e, s, BuyZone("orchard"));
    assert ZoneIn(e.content.zones, "orchard") == Some(Zone("orchard", 0, 1, OPEN));
  }

  // From a new save on this farm, a run that any player can make ends with seven plots
  // under Lean Season.
  lemma AnOrchardBreaksTheCap(e: Env, seed: nat, t: int)
    requires e.content == OrchardFarm()
    ensures Validated(e.content) && e.content.start.plots <= LEAN_PLOTS
    ensures var r := PlayAll(e, New(e, seed, t), OrchardRun(t)); r.activeContract == LeanSeason && |r.plots| == 7
  {
    hide Play, Validated;
    SampleIsValid(CHEAP, 0, [Zone("orchard", 0, 1, OPEN)], Start(1, 6), PLAIN);
    var run := OrchardRun(t);
    var s0 := New(e, seed, t);
    OrchardStarts(e, s0);
    var s1 := Play(e, s0, run[0]);
    OrchardPlants(e, s1);
    var s2 := Play(e, s1, run[1]);
    OrchardHarvests(e, s2);
    var s3 := Play(e, s2, run[2]);
    OrchardStarts(e, s3);
    var s4 := Play(e, s3, run[3]);
    OrchardIsBought(e, s4);
    FiveMoves(e, s0, run);
  }

  // ---- The capped loop ----

  const DEAR := Wheat(60_000, 60_001, OPEN)

  function DearWheatFarm(): Content {
    Sample(DEAR, 0, [], Start(60_001, 1), PLAIN)
  }

  // One crop by hand, both machines for its only plot, and the last coin sown again.
  function SpendingRun(t: int): seq<Move> {
    [Intent(t, Plant(0, "wheat")), Intent(t + 1, Harvest(0)), Intent(t + 1, UpgradePlotAuto(0, AutoHarvest)),
     Intent(t + 1, UpgradePlotAuto(0, AutoSow)), Intent(t + 1, Plant(0, "wheat"))]
  }

  // A farm of one plot on that content, with nothing running and little earned so far.
  predicate OnePlotFarm(e: Env, s: Save, coins: int, plot: Plot) {
    && e.content == DearWheatFarm() && s.plots == [plot] && s.coins == coins && s.activeContract == NoContract
    && s.eventId == "" && s.pouches == [] && 0 <= s.runEarnings <= 60_001 && 0 <= s.lifetimeEarnings <= 60_001
    && 0 <= s.lifetimeHarvests <= 1 && s.contractEarnings == 0
  }

  lemma DearPlants(e: Env, s: Save, coins: int, plot: Plot)
    requires OnePlotFarm(e, s, coins, plot) && plot.crop == "" && coins >= 60_000
    ensures var r := Play(e, s, Intent(s.updatedAt, Plant(0, "wheat")));
      && OnePlotFarm(e, r, coins - 60_000, Planted(plot, "wheat", s.updatedAt)) && r.updatedAt == s.updatedAt
      && r == s.(coins := r.coins, plots := r.plots, lastCrop := r.lastCrop, books := r.books)
  {
    NoTimeNoChange(e, s, Plant(0, "wheat"));
    assert CropIn(e.content.crops, "wheat") == Some(DEAR);
    OakIsCheapest(e, s);
    assert s.plots[0 := Planted(plot, "wheat", s.updatedAt)] == [Planted(plot, "wheat", s.updatedAt)];
  }

  lemma OakIsCheapest(e: Env, s: Save)
    requires e.content == DearWheatFarm()
    ensures !MercyPlantEligible(e, s, "wheat")
  {
    var crops := e.content.crops;
    assert CheapestUnlocked(s, crops[2..], Some(crops[1])) == Some(crops[1]) by { assert crops[2..][1..] == []; }
    assert CheapestUnlocked(s, crops[1..], Some(DEAR)) == Some(crops[1]) by { assert crops[1..][1..] == crops[2..]; }
  }

  lemma DearPays(e: Env, s: Save, coins: int, plot: Plot, now: int)
    requires OnePlotFarm(e, s, coins, plot)
    ensures HarvestPayout(e, s, DEAR, now) == (Yield(60_001, 0, false, false), s) && GrowSeconds(e, s, DEAR) == 1
  {
  }

  lemma DearHarvests(e: Env, s: Save)
    requires OnePlotFarm(e, s, 1, Planted(EmptyPlot, "wheat", s.updatedAt)) && s.lifetimeEarnings == s.runEarnings == 0
    requires s.lifetimeHarvests == 0
    ensures var r := Play(e, s, Intent(s.updatedAt + 1, Harvest(0)));
      && OnePlotFarm(e, r, 60_002, Plot("", 0, false, false, "", "", "wheat")) && r.updatedAt == s.updatedAt + 1
      && r.lifetimeEarnings == 60_001
  {
    hide Advance, HarvestPayout, GrowSeconds;
    var now := s.updatedAt + 1;
    NothingHappens(e, s, now);
    var t := Advance(e, s, now).0;
    assert CropIn(e.content.crops, "wheat") == Some(DEAR);
    DearPays(e, t, 1, s.plots[0], now);
  }

  lemma FirstMachineCostsOne(e: Env, s: Save, coins: int, plot: Plot)
    requires OnePlotFarm(e, s, coins, plot)
    ensures !plot.autoHarvest ==> PlotAutoHarvestCost(e, s) == 1
  {
    assert s.plots[1..] == [];
    if !plot.autoHarvest {
      assert AutoHarvestCount(s.plots) == 0;
      assert LadderPrice(1, 100, 0) == 1;
    }
  }

  lemma DearAutomates(e: Env, s: Save, coins: int, plot: Plot, kind: Automatic)
    requires OnePlotFarm(e, s, coins, plot) && s.lifetimeEarnings == 60_001 && coins >= 1
    requires (kind.AutoHarvest? && !plot.autoHarvest) || (kind.AutoSow? && plot.autoHarvest && !plot.autoSow)
    ensures var r := Play(e, s, Intent(s.updatedAt, UpgradePlotAuto(0, kind)));
      && OnePlotFarm(e, r, coins - 1, if kind.AutoHarvest? then plot.(autoHarvest := true) else plot.(autoSow := true))
      && r.updatedAt == s.updatedAt && r.lifetimeEarnings == s.lifetimeEarnings
  {
    hide PlotAutoHarvestCost, Play;
    NoTimeNoChange(e, s, UpgradePlotAuto(0, kind));
    FirstMachineCostsOne(e, s, coins, plot);
    var next := if kind.AutoHarvest? then plot.(autoHarvest := true) else plot.(autoSow := true);
    assert s.plots[0 := next] == [next];
  }

  lemma SpentDown(e: Env, seed: nat, t: int)
    requires e.content == DearWheatFarm()
    ensures OnePlotFarm(e, PlayAll(e, New(e, seed, t), SpendingRun(t)), 0, Plot("wheat", t + 1, true, true, "", "", "wheat"))
  {
    hide Play, OnePlotFarm;
    var run := SpendingRun(t);
    var s0 := New(e, seed, t);
    assert OnePlotFarm(e, s0, 60_001, EmptyPlot) by { NewIsOnePlot(e, seed, t); }
    DearPlants(e, s0, 60_001, EmptyPlot);
    var s1 := Play(e, s0, run[0]);
    DearHarvests(e, s1);
    var s2 := Play(e, s1, run[1]);
    var plot := Plot("", 0, false, false, "", "", "wheat");
    DearAutomates(e, s2, 60_002, plot, AutoHarvest);
    var s3 := Play(e, s2, run[2]);
    DearAutomates(e, s3, 60_001, plot.(autoHarvest := true), AutoSow);
    var s4 := Play(e, s3, run[3]);
    DearPlants(e, s4, 60_000, plot.(autoHarvest := true, autoSow := true));
    FiveMoves(e, s0, run);
  }

  lemma NewIsOnePlot(e: Env, seed: nat, t: int)
    requires e.content == DearWheatFarm()
    ensures OnePlotFarm(e, New(e, seed, t), 60_001, EmptyPlot)
  {
  }

  lemma FiveMoves(e: Env, s: Save, run: seq<Move>)
    requires |run| == 5
    ensures PlayAll(e, s, run) == Play(e, Play(e, Play(e, Play(e, Play(e, s, run[0]), run[1]), run[2]), run[3]), run[4])
  {
    hide Play;
    assert run[1..][1..] == run[2..] && run[2..][1..] == run[3..] && run[3..][1..] == run[4..] && run[4..][1..] == [];
    var s1 := Play(e, s, run[0]);
    var s2 := Play(e, s1, run[1]);
    var s3 := Play(e, s2, run[2]);
    var s4 := Play(e, s3, run[3]);
    assert PlayAll(e, s4, run[4..]) == Play(e, s4, run[4]);
    assert PlayAll(e, s3, run[3..]) == Play(e, s4, run[4]);
    assert PlayAll(e, s2, run[2..]) == Play(e, s4, run[4]);
    assert PlayAll(e, s1, run[1..]) == Play(e, s4, run[4]);
  }

  // A state a player reaches in a second, and 50,001 harvests later: the loop stops at its
  // cap with 50,000 coins, too few for the seed the batch asks for; one at a time the last
  // harvest pays as the others did.
  lemma TheCapLeavesAHarvest(e: Env, seed: nat, t: int)
    requires e.content == DearWheatFarm()
    ensures Validated(e.content)
    ensures var s, m := PlayAll(e, New(e, seed, t), SpendingRun(t)), t + 2;
      && |s.plots| == 1
      && Cycles(e, s, 0, DEAR, 1, m, 0, m + 50_000, NoReport).0.coins == 50_000
      && OneByOne(e, s, 0, DEAR, 1, m, m + 50_000, NoReport).0.coins == 50_001
  {
    hide Cycles, OneByOne, Validated, PlayAll, SpendingRun;
    SampleIsValid(DEAR, 0, [], Start(60_001, 1), PLAIN);
    SpentDown(e, seed, t);
    var s, to := PlayAll(e, New(e, seed, t), SpendingRun(t)), t + 50_002;
    TimesIsProduct(50_001, 60_001);
    assert Ready(e, s, 0, DEAR, 60_001, 60_000, 1, to, NoReport);
    OneByOneGathers(e, s, 0, DEAR, 60_001, 60_000, 1, to, NoReport);
    CyclesGather(e, s, 0, DEAR, 60_001, 60_000, 1, 0, to, NoReport);
    TimesIsProduct(50_001, 60_000);
    TimesIsProduct(50_000, 60_001);
    TimesIsProduct(50_000, 60_000);
  }

  // ---- The golden harvest ----

  const GOLD := Wheat(0, MAX, OPEN)

  function GoldFarm(): Content {
    Sample(GOLD, 0, [], Start(0, 1), Golden(100, 20))
  }

  lemma GoldIsPlanted(e: Env, seed: nat, t: int)
    requires e.content == GoldFarm()
    ensures Play(e, New(e, seed, t), Intent(t, Plant(0, "wheat")))
         == New(e, seed, t).(plots := [Planted(EmptyPlot, "wheat", t)], lastCrop := "wheat")
  {
    hide MercyPlantEligible, Play, CropIn;
    var s := New(e, seed, t);
    NoTimeNoChange(e, s, Plant(0, "wheat"));
    WheatIsFirst(e.content.crops);
    assert s.plots[0 := Planted(EmptyPlot, "wheat", t)] == [Planted(EmptyPlot, "wheat", t)];
  }

  lemma GoldWraps(e: Env, s: Save, now: int)
    requires e.content == GoldFarm() && s.eventId == ""
    ensures HarvestPayout(e, s, GOLD, now).0 == Yield(-2, 0, false, true) && GrowSeconds(e, s, GOLD) == 1
  {
    assert GoldenPayout(e, MAX) == -2;
  }

  // Planted and harvested from a new save: the doubled price leaves int64 and comes back
  // as minus two, so the harvest is accepted, counted, and pays nothing.
  lemma AGoldenHarvestPaysNothing(e: Env, seed: nat, t: int)
    requires e.content == GoldFarm()
    ensures Validated(e.content)
    ensures var s := Advance(e, Play(e, New(e, seed, t), Intent(t, Plant(0, "wheat"))), t + 1).0;
      && HarvestPayout(e, s, GOLD, t + 1).0 == Yield(-2, 0, false, true)
      && var o := Do(e, s, t + 1, Harvest(0));
      && o.Ok? && s.coins == o.value.coins == 0 && s.lifetimeHarvests == 0 && o.value.lifetimeHarvests == 1
      && |o.value.plots| == 1 && o.value.plots[0].crop == ""
  {
    hide Play, Advance, Validated, CropIn, HarvestPayout, GrowSeconds;
    SampleIsValid(GOLD, 0, [], Start(0, 1), Golden(100, 20));
    GoldIsPlanted(e, seed, t);
    var s := Play(e, New(e, seed, t), Intent(t, Plant(0, "wheat")));
    NothingHappens(e, s, t + 1);
    GoldWraps(e, Advance(e, s, t + 1).0, t + 1);
    WheatIsFirst(e.content.crops);
  }

  // ---- Prices above the ceiling ----

  const STALL := Bonus("stall", MAX, 100, 2, SellBonus, 1)

  // A market stall for every coin there can be, and land for as much.
  function TooDearFarm(): Content {
    Sample(Wheat(0, 7, OPEN), 0, [], Start(MAX, 1), PLAIN).(multipliers := [STALL], land := Land(MAX, 100, 100))
  }

  // Bought for the largest int64, the stall's second level is quoted at a hundredth of it.
  lemma TheSecondLevelIsCheaper(e: Env, seed: nat, t: int)
    requires e.content == TooDearFarm()
    ensures Validated(e.content)
    ensures var s := New(e, seed, t);
      var r := Play(e, s, Intent(t, BuyMultiplier("stall")));
      && LevelCost(STALL.cost, STALL.growthPct, STALL.maxLevel, Level(s.multipliers, "stall")) == Some(MAX)
      && s.coins == MAX && r.coins == 0 && Level(r.multipliers, "stall") == 1
      && LevelCost(STALL.cost, STALL.growthPct, STALL.maxLevel, Level(r.multipliers, "stall")) == Some(CEILING)
      && CEILING < MAX
  {
    hide Play, Validated;
    TooDearIsValid();
    NoTimeNoChange(e, New(e, seed, t), BuyMultiplier("stall"));
    assert BonusIn(e.content.multipliers, "stall") == Some(STALL);
    assert LadderPrice(MAX, 100, 0) == MAX;
    assert Climb(MAX, 100, 1) == Rung(CEILING, true) by { assert Climb(MAX, 100, 0) == Rung(MAX, false); }
  }

  // The discount's product leaves int64 even when there is no discount: the first plot of
  // land priced at the largest int64 is sold for one coin.
  lemma TheFirstPlotCostsOneCoin(e: Env, seed: nat, t: int)
    requires e.content == TooDearFarm()
    ensures Validated(e.content) && e.content.land.basePlotCost == MAX
    ensures var s := New(e, seed, t);
      var r := Play(e, s, Intent(t, BuyPlot));
      NextPlotCost(e, s) == Some(1) && r.coins == MAX - 1 && |r.plots| == |s.plots| + 1
  {
    hide Play, Validated;
    TooDearIsValid();
    NoTimeNoChange(e, New(e, seed, t), BuyPlot);
    assert LadderPrice(MAX, 100, 0) == MAX;
    assert Discounted(MAX, 100) == -1;
  }

  lemma TooDearIsValid()
    ensures Validated(TooDearFarm())
  {
    hide CropsOk, ZonesOk, StrainsOk, EventsOk;
    SampleIsValid(Wheat(0, 7, OPEN), 0, [], Start(MAX, 1), PLAIN);
    SameShelves(Sample(Wheat(0, 7, OPEN), 0, [], Start(MAX, 1), PLAIN), TooDearFarm());
  }

  lemma SameShelves(c: Content, d: Content)
    requires d == c.(multipliers := d.multipliers, land := d.land)
    ensures (CropsOk(d) <==> CropsOk(c)) && (ZonesOk(d) <==> ZonesOk(c)) && (StrainsOk(d) <==> StrainsOk(c))
    ensures EventsOk(d) <==> EventsOk(c)
  {
  }

  // ---- Automatic plots under Lean Season ----

  // Bare Hands done with one harvest; under Lean Season the first coin automates a plot,
  // which is then sown.
  function LeanRun(t: int): seq<Move> {
    OrchardRun(t)[..4] + [Intent(t + 1, UpgradePlotAuto(0, AutoHarvest)), Intent(t + 1, Plant(0, "wheat"))]
  }

  predicate LeanAndSown(e: Env, s: Save, planted: int) {
    && e.content == OrchardFarm() && s.activeContract == LeanSeason && s.updatedAt == planted && s.coins == 0
    && s.plots == FreshPlots(e)[0 := Plot("wheat", planted, true, false, "", "", "wheat")]
    && s.eventId == "" && s.pouches == [] && s.runEarnings == 0 && s.contractEarnings == 0 && s.contractStarseeds == 0
    && s.lifetimeEarnings == 100_000 && s.lifetimeHarvests == 1
  }

  lemma MoneyBuysAMachine(e: Env, s: Save)
    requires e.content == OrchardFarm() && s.activeContract == LeanSeason && s.plots == FreshPlots(e) && s.coins == 1
    ensures Play(e, s, Intent(s.updatedAt, UpgradePlotAuto(0, AutoHarvest)))
         == Pay(s, 1).(plots := s.plots[0 := EmptyPlot.(autoHarvest := true)])
  {
    hide PlotAutoHarvestCost, Play;
    NoTimeNoChange(e, s, UpgradePlotAuto(0, AutoHarvest));
    NobodyAutomated(s.plots);
    PriceOfTheFirst(e, s);
  }

  lemma {:induction false} NobodyAutomated(plots: seq<Plot>)
    requires Unautomated(plots)
    ensures AutoHarvestCount(plots) == 0
    decreases |plots|
  {
    if plots != [] {
      NobodyAutomated(plots[1..]);
    }
  }

  lemma PriceOfTheFirst(e: Env, s: Save)
    requires e.content.automation == Automation(1, 100, 1, 1) && AutoHarvestCount(s.plots) == 0
    ensures PlotAutoHarvestCost(e, s) == 1
  {
    assert LadderPrice(1, 100, 0) == 1;
  }

  lemma LeanIsReached(e: Env, seed: nat, t: int)
    requires e.content == OrchardFarm()
    ensures LeanAndSown(e, PlayAll(e, New(e, seed, t), LeanRun(t)), t + 1)
  {
    hide Play;
    var run := LeanRun(t);
    var s0 := New(e, seed, t);
    OrchardStarts(e, s0);
    var s1 := Play(e, s0, run[0]);
    OrchardPlants(e, s1);
    var s2 := Play(e, s1, run[1]);
    OrchardHarvests(e, s2);
    var s3 := Play(e, s2, run[2]);
    OrchardStarts(e, s3);
    var s4 := Play(e, s3, run[3]);
    MoneyBuysAMachine(e, s4);
    var s5 := Play(e, s4, run[4]);
    OrchardPlants(e, s5);
    SixMoves(e, s0, run);
  }

  lemma SixMoves(e: Env, s: Save, run: seq<Move>)
    requires |run| == 6
    ensures PlayAll(e, s, run)
         == Play(e, Play(e, Play(e, Play(e, Play(e, Play(e, s, run[0]), run[1]), run[2]), run[3]), run[4]), run[5])
  {
    hide Play;
    FiveMoves(e, Play(e, s, run[0]), run[1..]);
  }

  // A second later the automatic plot's harvest is in the wallet and in the contract's own
  // count of earnings, and Lean Season is still active.
  lemma AutomaticPlotsPayUnderLeanSeason(e: Env, seed: nat, t: int)
    requires e.content == OrchardFarm()
    ensures Validated(e.content)
    ensures var s := PlayAll(e, New(e, seed, t), LeanRun(t));
      var r := Advance(e, s, t + 2).0;
      && s.activeContract == r.activeContract == LeanSeason && s.coins == s.contractEarnings == 0
      && r.coins == r.runEarnings == r.contractEarnings == 100_000
  {
    hide Advance, Validated, PlayAll, LeanRun;
    SampleIsValid(CHEAP, 0, [Zone("orchard", 0, 1, OPEN)], Start(1, 6), PLAIN);
    LeanIsReached(e, seed, t);
    OneSecondPays(e, PlayAll(e, New(e, seed, t), LeanRun(t)), t + 2);
  }

  lemma OneSecondPays(e: Env, s: Save, to: int)
    requires LeanAndSown(e, s, to - 1)
    ensures var r := Advance(e, s, to).0;
      r.activeContract == LeanSeason && r.coins == r.runEarnings == r.contractEarnings == 100_000
  {
    hide Prelude, Cycles, MaybeCritter, Times, SettlePlots;
    OnlyAParcelComes(e, s, to);
    var (t, ev) := Prelude(e, s, to);
    assert CropIn(e.content.crops, "wheat") == Some(CHEAP);
    assert GrowSeconds(e, t, CHEAP) == 1 && Price(e, t, CHEAP) == 100_000;
    TimeSplit.HarvestedOnce(e, t, 0, CHEAP, 1, to, ev);
    FirstPlotThenTheRest(e, t, to, ev);
    var (u, ev') := Cycles(e, t, 0, CHEAP, 1, to, 0, to, ev);
    ManualPlotsWait(e, u, 1, to - 1, to, true, ev');
  }

  lemma FirstPlotThenTheRest(e: Env, s: Save, to: int, ev: Report)
    requires LeanAndSown(e, s, to - 1)
    ensures var (u, ev') := Cycles(e, s, 0, CHEAP, 1, to, 0, to, ev);
      SettlePlots(e, s, 0, to - 1, to, true, ev) == SettlePlots(e, u, 1, to - 1, to, true, ev')
  {
    hide Cycles, MaybeCritter;
    assert CropIn(e.content.crops, "wheat") == Some(CHEAP);
    assert GrowSeconds(e, s, CHEAP) == 1;
  }
}
