// What each intent charges, against the prices the shop shows: the books of the ledger
// record exactly those.
module Charges {
  import opened Common
  import opened Money
  import opened FarmState
  import opened FarmAdvance
  import opened FarmActions
  import opened Campaign
  import opened Replant
  import C = Content

  // The price shown for an intent before it is tried; 0 where nothing is for sale.
  function Quote(e: Env, s: Save, now: int, a: Action): int {
    match a
    case Plant(_, id) =>
      var crop := C.CropIn(e.content.crops, id);
      if crop.None? || MercyPlantEligible(e, s, id) then 0 else SeedCost(e, s, crop.value)
    case ReplantAll =>
      var order := DearestFirst(Candidates(e, s, |s.plots|, now));
      CostOf(order, Greedy(s.coins, order))
    case BuyPlot => OrNothing(NextPlotCost(e, s))
    case BuyZone(id) =>
      var zone := C.ZoneIn(e.content.zones, id);
      if zone.None? then 0 else zone.value.cost
    case BuyMultiplier(id) =>
      var m := C.BonusIn(e.content.multipliers, id);
      if m.None? then 0
      else OrNothing(LevelCost(m.value.cost, m.value.growthPct, m.value.maxLevel, Level(s.multipliers, id)))
    case BuySeedUpgrade(id) =>
      var u := C.SeedUpgradeIn(e.content.seedUpgrades, id);
      if u.None? then 0
      else OrNothing(LevelCost(u.value.cost, u.value.growthPct, u.value.maxLevel, Level(s.seedUpgrades, u.value.cropId)))
    case UpgradePlotAuto(_, kind) =>
      if kind.AutoHarvest? then PlotAutoHarvestCost(e, s)
      else if kind.AutoSow? then e.content.automation.sowCost
      else 0
    case BuyScarecrow => OrNothing(ScarecrowCost(e, s))
    case _ => 0
  }

  function OrNothing(cost: Option<int>): int {
    if cost.Some? then cost.value else 0
  }

  // A run begins again, with fresh books.
  predicate Resets(a: Action) {
    a.Rebirth? || a.StartContract? || a.AbandonContract?
  }

  predicate Earns(a: Action) {
    a.Harvest? || a.CollectScarecrow? || a.CollectScarecrows? || a.ShooCritter? || a.RedeemGift?
  }

  predicate Spent(s: Save, r: Save, price: int) {
    r.coins == s.coins - price && r.books == s.books.(spent := s.books.spent + price)
  }

  // Paid for out of earnings alone: spending did not move.
  predicate Gained(s: Save, r: Save) {
    r.books == s.books.(earned := r.books.earned) && r.books.earned >= s.books.earned
  }

  lemma CreditGains(s: Save, amount: int)
    ensures Gained(s, Credit(s, amount)) && Gained(s, CreditStarseeds(s, amount))
  {
    hide CheckCompletion;
    CompletionGains(Credited(s, amount));
    CompletionGains(s.(starseeds := SatAdd(s.starseeds, amount),
                       contractStarseeds := SatAdd(s.contractStarseeds, amount)));
  }

  lemma CompletionGains(s: Save)
    ensures CheckCompletion(s).books == s.books
  {
  }

  lemma PlantCharges(e: Env, s: Save, i: int, id: string, now: int)
    ensures var o := DoPlant(e, s, i, id, now); o.Ok? ==> Spent(s, o.value, Quote(e, s, now, Plant(i, id)))
  {
    hide SeedCost, Unlocked, SeasonalPlantable, MercyPlantEligible, Planted, Pay, Spent;
    var o, crop := DoPlant(e, s, i, id, now), C.CropIn(e.content.crops, id);
    if o.Ok? && crop.Some? {
      var cost := SeedCost(e, s, crop.value);
      PayNothing(s);
      SamePlots(s, cost);
      PlantedCharges(s, if MercyPlantEligible(e, s, id) then 0 else cost, o.value);
    }
  }

  lemma PlantedCharges(s: Save, cost: int, r: Save)
    requires r == Pay(s, cost).(plots := r.plots, lastCrop := r.lastCrop)
    ensures Spent(s, r, cost)
  {
  }

  lemma SowCharges(s: Save, c: Candidate, now: int)
    requires c.plot < |s.plots|
    ensures Spent(s, Sow(s, c, now), if s.coins < c.cost then 0 else c.cost)
  {
    hide Planted;
  }

  lemma {:induction false} SowAllCharges(s: Save, cands: seq<Candidate>, now: int)
    requires Fit(s, cands)
    ensures Spent(s, SowAll(s, cands, now), CostOf(cands, Greedy(s.coins, cands)))
    decreases |cands|
  {
    hide Fit, Sow;
    if cands != [] {
      FitRest(s, cands, now);
      var t := Sow(s, cands[0], now);
      SowCharges(s, cands[0], now);
      assert Greedy(s.coins, cands)[1..] == Greedy(t.coins, cands[1..]);
      SowAllCharges(t, cands[1..], now);
    }
  }

  lemma ReplantCharges(e: Env, s: Save, now: int)
    ensures Spent(s, DoReplantAll(e, s, now), Quote(e, s, now, ReplantAll))
  {
    hide CandidateAt, SowAll, Spent;
    var cands := Candidates(e, s, |s.plots|, now);
    var order := DearestFirst(cands);
    CandidatesAre(e, s, |s.plots|, now);
    DearestFirstSorts(cands);
    SameMembers(order, cands);
    SortedIsDistinct(e, s, order, now);
    SowAllCharges(s, order, now);
  }

  lemma PlotCharges(e: Env, s: Save, now: int)
    ensures var o := DoBuyPlot(e, s); o.Ok? ==> Spent(s, o.value, Quote(e, s, now, BuyPlot))
  {
    hide NextPlotCost;
  }

  lemma ZoneCharges(e: Env, s: Save, now: int, id: string)
    ensures var o := DoBuyZone(e, s, id); o.Ok? ==> Spent(s, o.value, Quote(e, s, now, BuyZone(id)))
  {
    hide Unlocked;
  }

  lemma MultiplierCharges(e: Env, s: Save, now: int, id: string)
    ensures var o := DoBuyMultiplier(e, s, id); o.Ok? ==> Spent(s, o.value, Quote(e, s, now, BuyMultiplier(id)))
  {
    hide LevelCost;
  }

  lemma StrainCharges(e: Env, s: Save, now: int, id: string)
    ensures var o := DoBuySeedUpgrade(e, s, id); o.Ok? ==> Spent(s, o.value, Quote(e, s, now, BuySeedUpgrade(id)))
  {
    hide LevelCost, Unlocked;
  }

  lemma AutomationCharges(e: Env, s: Save, now: int, i: int, kind: Automatic)
    ensures var o := DoUpgradePlotAuto(e, s, i, kind); o.Ok? ==> Spent(s, o.value, Quote(e, s, now, UpgradePlotAuto(i, kind)))
  {
    hide PlotAutoHarvestCost, BlocksAutomation;
  }

  lemma ScarecrowCharges(e: Env, s: Save, now: int)
    ensures var o := DoBuyScarecrow(e, s); o.Ok? ==> Spent(s, o.value, Quote(e, s, now, BuyScarecrow))
  {
    hide ScarecrowCost, BlocksScarecrow, ProgressionRebirths;
  }

  lemma SettingsCharge(e: Env, s: Save, now: int, a: Action)
    requires a.SetAutoSowCrop? || a.BuyUpgrade? || a.SetNameStyle? || a.SetFarmName? || a.SetFlavor? || a.SetCritters?
    ensures var o := Do(e, s, now, a); o.Ok? ==> Spent(s, o.value, 0)
  {
    hide Unlocked, LevelCost, BlocksAutomation, StyleUnlocked;
  }

  lemma HarvestGains(e: Env, s: Save, i: int, now: int)
    ensures var o := DoHarvest(e, s, i, now); o.Ok? ==> Gained(s, o.value)
  {
    hide HarvestPayout, Credit, GrowSeconds;
    var o := DoHarvest(e, s, i, now);
    if o.Ok? {
      var (y, t) := HarvestPayout(e, s, C.CropIn(e.content.crops, s.plots[i].crop).value, now);
      CreditGains(t, y.payout);
      CreditGains(Credit(t, y.payout), y.discovery);
    }
  }

  lemma CollectGains(s: Save, i: int)
    ensures var o := DoCollectScarecrow(s, i); o.Ok? ==> Gained(s, o.value)
  {
    hide Credit;
    if 0 <= i < |s.pouches| {
      CreditGains(s.(pouches := s.pouches[i := 0]), s.pouches[i]);
    }
  }

  lemma {:induction false} CollectAllGains(s: Save, i: nat)
    ensures Gained(s, CollectFrom(s, i))
    decreases |s.pouches| - i
  {
    hide DoCollectScarecrow;
    if i < |s.pouches| {
      CollectGains(s, i);
      CollectKeepsPouches(s, i);
      var o := DoCollectScarecrow(s, i);
      CollectAllGains(if o.Ok? then o.value else s, i + 1);
    }
  }

  lemma ShooGains(e: Env, s: Save, i: int)
    ensures var o := DoShooCritter(e, s, i); o.Ok? ==> Gained(s, o.value)
  {
    hide Credit, SatMul, I64, Quo;
    var o := DoShooCritter(e, s, i);
    if o.Ok? {
      var (base, t) := RollRange(e, s, e.content.critters.shooMin, e.content.critters.shooMax);
      CreditGains(t.(plots := s.plots[i := s.plots[i].(critter := "")]),
        Quo(SatMul(base, I64(100 + I64(e.content.critters.rebirthBonusPct * ProgressionRebirths(s)))), 100));
    }
  }

  lemma RedeemGains(e: Env, s: Save)
    ensures var o := DoRedeemGift(e, s); o.Ok? ==> Gained(s, o.value)
  {
    hide Credit, CreditStarseeds, GiftCoins, FloorSqrt, Roll, Quo;
    var t := s.(giftPending := false, giftArrivedAt := 0);
    var rebirths := ProgressionRebirths(s);
    var (roll, v) := if rebirths >= 1 then Roll(e, t, 100) else (100, t);
    RollDraws(e, t);
    CreditGains(v, FloorSqrt(Quo(v.runEarnings, e.content.prestige.divisor)) + 1 + rebirths);
    var (coins, u) := GiftCoins(e, v);
    CreditGains(u, coins);
  }

  // An accepted intent either begins the run again, or earns without spending, or takes
  // from the wallet exactly the price that was shown, and books it.
  lemma EveryIntentChargesItsQuote(e: Env, s: Save, now: int, a: Action)
    ensures var o := Do(e, s, now, a);
      o.Ok? && !Resets(a) ==>
        if Earns(a) then Gained(s, o.value) else Spent(s, o.value, Quote(e, s, now, a))
  {
    hide DoPlant, DoHarvest, DoReplantAll, DoBuyPlot, DoBuyZone, DoBuyMultiplier, DoBuySeedUpgrade,
      DoUpgradePlotAuto, DoSetAutoSowCrop, DoBuyUpgrade, DoRedeemGift, DoCollectScarecrow, CollectFrom, DoBuyScarecrow,
      DoShooCritter, DoRebirth, DoStartContract, DoAbandonContract, DoSetNameStyle, DoSetFarmName, Spent, Gained;
    match a
    case Plant(i, id) => PlantCharges(e, s, i, id, now);
    case ReplantAll => ReplantCharges(e, s, now);
    case Harvest(i) => HarvestGains(e, s, i, now);
    case CollectScarecrow(i) => CollectGains(s, i);
    case CollectScarecrows => CollectAllGains(s, 0);
    case ShooCritter(i) => ShooGains(e, s, i);
    case RedeemGift => RedeemGains(e, s);
    case Rebirth =>
    case StartContract(_) =>
    case AbandonContract =>
    case BuyPlot => PlotCharges(e, s, now);
    case BuyZone(id) => ZoneCharges(e, s, now, id);
    case BuyMultiplier(id) => MultiplierCharges(e, s, now, id);
    case BuySeedUpgrade(id) => StrainCharges(e, s, now, id);
    case UpgradePlotAuto(i, kind) => AutomationCharges(e, s, now, i, kind);
    case BuyScarecrow => ScarecrowCharges(e, s, now);
    case _ => SettingsCharge(e, s, now, a);
  }
}
