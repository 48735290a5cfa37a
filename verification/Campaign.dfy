// What every run of ticks and intents keeps: the ledger, the contract campaign and the
// active contract's restrictions.
module Campaign {
  import opened Common
  import opened Money
  import opened FarmState
  import opened FarmAdvance
  import opened FarmActions
  import opened FastPath
  import opened Passage
  import C = Content

  // One closure on the save's actor: time passes, then perhaps an intent.
  datatype Move = Tick(now: int) | Intent(now: int, action: Action)

  function Play(e: Env, s: Save, m: Move): Save {
    match m
    case Tick(now) => Advance(e, s, now).0
    case Intent(now, a) => Act(e, Advance(e, s, now).0, now, a).0
  }

  function PlayAll(e: Env, s: Save, moves: seq<Move>): Save
    decreases |moves|
  {
    if moves == [] then s else PlayAll(e, Play(e, s, moves[0]), moves[1..])
  }

  // ---- The invariant ----

  // The campaign's shape, with the goal perhaps just reached.
  predicate InOrder(s: Save) {
    && 0 <= s.contractsCompleted <= CONTRACTS
    && (s.activeContract == NoContract ||
        (s.contractsCompleted < CONTRACTS && s.activeContract == Definition(s.contractsCompleted)))
    && (s.activeContract == NoContract ==>
          s.contractEarnings == 0 && s.contractStarseeds == 0 && s.contractRebirths == 0)
    && Coins(s.contractEarnings) && Coins(s.contractStarseeds) && Coins(s.contractRebirths)
    && StyleUnlocked(s.contractsCompleted, s.nameStyle)
  }

  predicate Unautomated(plots: seq<Plot>) {
    forall i :: 0 <= i < |plots| ==> !plots[i].autoHarvest && !plots[i].autoSow
  }

  // What the active contract forbids is not there.
  predicate Restricted(s: Save) {
    && (BlocksAutomation(s) ==> Unautomated(s.plots))
    && (s.activeContract.ClockworkDenied? ==> s.eventId == "" && !s.giftPending && s.pouches == [])
    && (s.activeContract.LeanSeason? ==> "greenhouse" !in s.zones)
  }

  predicate Kept(s: Save) {
    Balanced(s) && InOrder(s) && !Complete(s) && Restricted(s)
  }

  // Lifetime earnings never fall, and at most the active contract is completed.
  predicate Stride(s: Save, r: Save) {
    && s.lifetimeEarnings <= r.lifetimeEarnings
    && ((r.contractsCompleted == s.contractsCompleted && r.activeContract == s.activeContract)
        || Completes(s, r))
  }

  predicate Completes(s: Save, r: Save) {
    r.contractsCompleted == s.contractsCompleted + 1 && s.activeContract != NoContract && r.activeContract == NoContract
  }

  // Starting and abandoning also change which contract is active.
  predicate Progress(s: Save, r: Save) {
    s.lifetimeEarnings <= r.lifetimeEarnings && (r.contractsCompleted == s.contractsCompleted || Completes(s, r))
  }

  predicate Keeps(s: Save, r: Save) {
    Kept(r) && Stride(s, r)
  }

  lemma KeepsOn(s: Save, t: Save, r: Save)
    requires Keeps(s, t) && Keeps(t, r)
    ensures Keeps(s, r)
  {
    hide Kept;
  }

  // ---- The pieces intents are made of ----

  lemma CompletionBalances(s: Save)
    requires Balanced(s) && Restricted(s)
    ensures Balanced(CheckCompletion(s)) && Restricted(CheckCompletion(s))
  {
    hide Complete;
  }

  lemma CompletionKeeps(s: Save)
    requires Balanced(s) && InOrder(s) && Restricted(s)
    ensures Keeps(s, CheckCompletion(s))
  {
    hide Balanced, Restricted;
    CompletionBalances(s);
  }

  lemma CreditKeeps(s: Save, amount: int)
    requires Kept(s)
    ensures Keeps(s, Credit(s, amount))
  {
    if amount > 0 && s.activeContract != NoContract {
      CompletionKeeps(Credited(s, amount));
    }
  }

  function Credited(s: Save, amount: int): Save {
    s.(coins := SatAdd(s.coins, amount), runEarnings := SatAdd(s.runEarnings, amount),
       lifetimeEarnings := SatAdd(s.lifetimeEarnings, amount),
       books := s.books.(earned := s.books.earned + amount),
       contractEarnings := SatAdd(s.contractEarnings, amount))
  }

  lemma CreditStarseedsKeeps(s: Save, amount: int)
    requires Kept(s)
    ensures Keeps(s, CreditStarseeds(s, amount))
  {
    if amount > 0 && s.activeContract != NoContract {
      CompletionKeeps(s.(starseeds := SatAdd(s.starseeds, amount),
                         contractStarseeds := SatAdd(s.contractStarseeds, amount)));
    }
  }

  // Nothing the invariant speaks of, but for a payment and for plots whose automation stays.
  predicate Bought(s: Save, r: Save, cost: int) {
    && 0 <= cost <= s.coins && r.coins == s.coins - cost && r.books == s.books.(spent := s.books.spent + cost)
    && r.runEarnings == s.runEarnings && r.lifetimeEarnings == s.lifetimeEarnings
    && r.contractsCompleted == s.contractsCompleted && r.activeContract == s.activeContract
    && r.contractEarnings == s.contractEarnings && r.contractStarseeds == s.contractStarseeds
    && r.contractRebirths == s.contractRebirths && r.nameStyle == s.nameStyle
    && r.eventId == s.eventId && (r.giftPending ==> s.giftPending)
  }

  lemma BoughtKeeps(s: Save, r: Save, cost: int)
    requires Kept(s) && Bought(s, r, cost)
    requires BlocksAutomation(s) ==> Unautomated(r.plots)
    requires s.activeContract.ClockworkDenied? ==> r.pouches == []
    requires s.activeContract.LeanSeason? ==> "greenhouse" !in r.zones
    ensures Keeps(s, r)
  {
  }

  // ---- Intents ----

  lemma KeptParts(s: Save)
    requires Kept(s)
    ensures 0 <= s.coins && (BlocksAutomation(s) ==> Unautomated(s.plots))
    ensures s.activeContract.ClockworkDenied? ==> s.pouches == []
    ensures s.activeContract.LeanSeason? ==> "greenhouse" !in s.zones
  {
  }

  lemma PlantedKeeps(s: Save, i: nat, crop: string, now: int, cost: int)
    requires Kept(s) && i < |s.plots| && 0 <= cost <= s.coins
    ensures Keeps(s, Pay(s, cost).(plots := s.plots[i := Planted(s.plots[i], crop, now)], lastCrop := crop))
  {
    hide Kept, Keeps, BlocksAutomation;
    KeptParts(s);
    BoughtKeeps(s, Pay(s, cost).(plots := s.plots[i := Planted(s.plots[i], crop, now)], lastCrop := crop), cost);
  }

  lemma PayNothing(s: Save)
    ensures Pay(s, 0) == s
  {
  }

  lemma PlantKeeps(e: Env, s: Save, i: int, cropId: string, now: int)
    requires Kept(s)
    ensures var o := DoPlant(e, s, i, cropId, now); o.Ok? ==> Keeps(s, o.value)
  {
    hide Kept, Keeps, SeedCost, Unlocked, SeasonalPlantable, MercyPlantEligible, Planted, Pay;
    var o := DoPlant(e, s, i, cropId, now);
    if o.Ok? {
      var crop := C.CropIn(e.content.crops, cropId).value;
      KeptParts(s);
      PayNothing(s);
      SamePlots(s, SeedCost(e, s, crop));
      PlantedKeeps(s, i, cropId, now, if MercyPlantEligible(e, s, cropId) then 0 else SeedCost(e, s, crop));
    }
  }

  lemma SamePlots(s: Save, cost: int)
    ensures Pay(s, cost).plots == s.plots
  {
  }

  lemma SowKeeps(s: Save, c: Candidate, now: int)
    requires Kept(s)
    ensures Keeps(s, Sow(s, c, now))
  {
    hide Kept, Keeps, BlocksAutomation;
    KeptParts(s);
    if s.coins < c.cost || c.plot >= |s.plots| {
      BoughtKeeps(s, s, 0);
    } else {
      BoughtKeeps(s, Sow(s, c, now), c.cost);
    }
  }

  lemma {:induction false} SowAllKeeps(s: Save, cands: seq<Candidate>, now: int)
    requires Kept(s)
    ensures Keeps(s, SowAll(s, cands, now))
    decreases |cands|
  {
    hide Kept, Sow;
    if cands != [] {
      SowKeeps(s, cands[0], now);
      SowAllKeeps(Sow(s, cands[0], now), cands[1..], now);
      KeepsOn(s, Sow(s, cands[0], now), SowAll(s, cands, now));
    }
  }

  lemma HarvestKeeps(e: Env, s: Save, i: int, now: int)
    requires Kept(s)
    ensures var o := DoHarvest(e, s, i, now); o.Ok? ==> Keeps(s, o.value)
  {
    hide Kept, Keeps, Credit, HarvestPayout, GrowSeconds, BlocksAutomation;
    var o := DoHarvest(e, s, i, now);
    if o.Ok? {
      var crop := C.CropIn(e.content.crops, s.plots[i].crop).value;
      var (y, t) := HarvestPayout(e, s, crop, now);
      KeptParts(s);
      BoughtKeeps(s, t, 0);
      KeepsKept(s, t);
      CreditKeeps(t, y.payout);
      KeepsKept(t, Credit(t, y.payout));
      CreditKeeps(Credit(t, y.payout), y.discovery);
      var v := Credit(Credit(t, y.payout), y.discovery);
      KeepsKept(Credit(t, y.payout), v);
      KeptParts(v);
      BoughtKeeps(v, o.value, 0);
      KeepsOn(s, t, Credit(t, y.payout));
      KeepsOn(s, Credit(t, y.payout), v);
      KeepsOn(s, v, o.value);
    }
  }

  lemma KeepsKept(s: Save, r: Save)
    requires Keeps(s, r)
    ensures Kept(r)
  {
  }

  lemma LadderPositive(base: int, growth: C.growth, levels: nat)
    requires base >= 1
    ensures LadderPrice(base, growth, levels) >= 1
  {
    if levels > 0 {
      LadderPositive(base, growth, levels - 1);
      GrowthGrows(Climb(base, growth, levels - 1).cost, growth);
    }
  }

  lemma BuyPlotKeeps(e: Env, s: Save)
    requires Kept(s)
    ensures var o := DoBuyPlot(e, s); o.Ok? ==> Keeps(s, o.value)
  {
    hide Kept, Keeps, LadderPrice, EffectSum, BlocksAutomation;
    KeptParts(s);
    var o := DoBuyPlot(e, s);
    if o.Ok? {
      BoughtKeeps(s, o.value, NextPlotCost(e, s).value);
    }
  }

  lemma BuyZoneKeeps(e: Env, s: Save, id: string)
    requires Kept(s)
    ensures var o := DoBuyZone(e, s, id); o.Ok? ==> Keeps(s, o.value)
  {
    hide Kept, Keeps, Unlocked, BlocksAutomation;
    KeptParts(s);
    var o := DoBuyZone(e, s, id);
    if o.Ok? {
      BoughtKeeps(s, o.value, C.ZoneIn(e.content.zones, id).value.cost);
    }
  }

  lemma BuyMultiplierKeeps(e: Env, s: Save, id: string)
    requires Kept(s)
    ensures var o := DoBuyMultiplier(e, s, id); o.Ok? ==> Keeps(s, o.value)
  {
    hide Kept, Keeps, LadderPrice, BlocksAutomation;
    KeptParts(s);
    var o := DoBuyMultiplier(e, s, id);
    if o.Ok? {
      var m := C.BonusIn(e.content.multipliers, id).value;
      LadderPositive(m.cost, m.growthPct, Level(s.multipliers, id));
      BoughtKeeps(s, o.value, LadderPrice(m.cost, m.growthPct, Level(s.multipliers, id)));
    }
  }

  lemma BuySeedUpgradeKeeps(e: Env, s: Save, id: string)
    requires Kept(s)
    ensures var o := DoBuySeedUpgrade(e, s, id); o.Ok? ==> Keeps(s, o.value)
  {
    hide Kept, Keeps, LadderPrice, Unlocked, BlocksAutomation;
    KeptParts(s);
    var o := DoBuySeedUpgrade(e, s, id);
    if o.Ok? {
      var u := C.SeedUpgradeIn(e.content.seedUpgrades, id).value;
      LadderPositive(u.cost, u.growthPct, Level(s.seedUpgrades, u.cropId));
      BoughtKeeps(s, o.value, LadderPrice(u.cost, u.growthPct, Level(s.seedUpgrades, u.cropId)));
    }
  }

  lemma UpgradePlotKeeps(e: Env, s: Save, i: int, kind: Automatic)
    requires Kept(s)
    ensures var o := DoUpgradePlotAuto(e, s, i, kind); o.Ok? ==> Keeps(s, o.value)
  {
    hide Kept, Keeps, LadderPrice, BlocksAutomation;
    KeptParts(s);
    var o := DoUpgradePlotAuto(e, s, i, kind);
    if o.Ok? {
      BoughtKeeps(s, o.value, if kind.AutoHarvest? then PlotAutoHarvestCost(e, s) else e.content.automation.sowCost);
    }
  }

  lemma SetAutoSowCropKeeps(e: Env, s: Save, i: int, cropId: string)
    requires Kept(s)
    ensures var o := DoSetAutoSowCrop(e, s, i, cropId); o.Ok? ==> Keeps(s, o.value)
  {
    hide Kept, Keeps, Unlocked, BlocksAutomation;
    KeptParts(s);
    var o := DoSetAutoSowCrop(e, s, i, cropId);
    if o.Ok? {
      BoughtKeeps(s, o.value, 0);
    }
  }

  lemma BuyUpgradeKeeps(e: Env, s: Save, id: string)
    requires Kept(s)
    ensures var o := DoBuyUpgrade(e, s, id); o.Ok? ==> Keeps(s, o.value)
  {
    hide Kept, Keeps, LevelCost, BlocksAutomation;
    KeptParts(s);
    var o := DoBuyUpgrade(e, s, id);
    if o.Ok? {
      BoughtKeeps(s, o.value, 0);
    }
  }

  lemma SaturatingNonNegative(base: int, growth: C.growth, owned: nat)
    requires base >= 0
    ensures SaturatingPrice(base, growth, owned) >= 0
  {
    if owned > 0 {
      SaturatingNonNegative(base, growth, owned - 1);
      SatMulCaps(SaturatingPrice(base, growth, owned - 1), growth);
      MulMonotone(0, SaturatingPrice(base, growth, owned - 1), growth);
    }
  }

  lemma BuyScarecrowKeeps(e: Env, s: Save)
    requires Kept(s)
    ensures var o := DoBuyScarecrow(e, s); o.Ok? ==> Keeps(s, o.value)
  {
    hide Kept, Keeps, SaturatingPrice, BlocksAutomation;
    KeptParts(s);
    var o := DoBuyScarecrow(e, s);
    if o.Ok? {
      var sc := e.content.scarecrow;
      SaturatingNonNegative(sc.cost, sc.growthPct, |s.pouches|);
      BoughtKeeps(s, o.value, ScarecrowCost(e, s).value);
    }
  }

  lemma CollectKeeps(s: Save, i: int)
    requires Kept(s)
    ensures var o := DoCollectScarecrow(s, i); o.Ok? ==> Keeps(s, o.value)
  {
    hide Kept, Keeps, Credit, BlocksAutomation;
    KeptParts(s);
    var o := DoCollectScarecrow(s, i);
    if o.Ok? {
      var t := s.(pouches := s.pouches[i := 0]);
      BoughtKeeps(s, t, 0);
      KeepsKept(s, t);
      CreditKeeps(t, s.pouches[i]);
      KeepsOn(s, t, o.value);
    }
  }

  lemma {:induction false} CollectFromKeeps(s: Save, i: nat)
    requires Kept(s)
    ensures Keeps(s, CollectFrom(s, i))
    decreases |s.pouches| - i
  {
    hide Kept, Keeps, DoCollectScarecrow, BlocksAutomation;
    KeptParts(s);
    BoughtKeeps(s, s, 0);
    if i < |s.pouches| {
      CollectKeeps(s, i);
      var o := DoCollectScarecrow(s, i);
      if o.Ok? {
        KeepsKept(s, o.value);
        CollectKeepsPouches(s, i);
        CollectFromKeeps(o.value, i + 1);
        KeepsOn(s, o.value, CollectFrom(s, i));
      } else {
        CollectFromKeeps(s, i + 1);
      }
    }
  }

  lemma CollectKeepsPouches(s: Save, i: nat)
    requires i < |s.pouches|
    ensures var o := DoCollectScarecrow(s, i); o.Ok? ==> |o.value.pouches| == |s.pouches|
  {
  }

  lemma ShooKeeps(e: Env, s: Save, i: int)
    requires Kept(s)
    ensures var o := DoShooCritter(e, s, i); o.Ok? ==> Keeps(s, o.value)
  {
    hide Kept, Keeps, Credit, SatMul, BlocksAutomation;
    KeptParts(s);
    var o := DoShooCritter(e, s, i);
    if o.Ok? {
      var (base, t) := RollRange(e, s, e.content.critters.shooMin, e.content.critters.shooMax);
      var u := t.(plots := s.plots[i := s.plots[i].(critter := "")]);
      var reward := Quo(SatMul(base, I64(100 + I64(e.content.critters.rebirthBonusPct * ProgressionRebirths(s)))), 100);
      BoughtKeeps(s, u, 0);
      KeepsKept(s, u);
      CreditKeeps(u, reward);
      KeepsOn(s, u, o.value);
    }
  }

  lemma RollDraws(e: Env, s: Save)
    ensures Roll(e, s, 100).1 == s.(draws := s.draws + 1)
  {
  }

  lemma RedeemKeeps(e: Env, s: Save)
    requires Kept(s)
    ensures var o := DoRedeemGift(e, s); o.Ok? ==> Keeps(s, o.value)
  {
    hide Kept, Keeps, Credit, CreditStarseeds, FloorSqrt, GiftCoins, BlocksAutomation, Roll, Quo, ProgressionRebirths;
    var o := DoRedeemGift(e, s);
    if o.Ok? {
      var t := s.(giftPending := false, giftArrivedAt := 0);
      var rebirths := ProgressionRebirths(s);
      var (roll, v) := if rebirths >= 1 then Roll(e, t, 100) else (100, t);
      RollDraws(e, t);
      OpenedKeeps(s, v);
      if roll < e.content.gifts.starseedChancePct {
        CreditStarseedsKeeps(v, FloorSqrt(Quo(v.runEarnings, e.content.prestige.divisor)) + 1 + rebirths);
        KeepsOn(s, v, o.value);
      } else {
        CoinGiftKeeps(e, v);
        KeepsOn(s, v, o.value);
      }
    }
  }

  lemma OpenedKeeps(s: Save, v: Save)
    requires Kept(s) && v == s.(giftPending := false, giftArrivedAt := 0, draws := v.draws)
    ensures Keeps(s, v) && Kept(v)
  {
    KeptParts(s);
    BoughtKeeps(s, v, 0);
  }

  lemma CoinGiftKeeps(e: Env, v: Save)
    requires Kept(v)
    ensures var (coins, u) := GiftCoins(e, v); Keeps(v, Credit(u, coins))
  {
    hide Kept, Keeps, Credit, BlocksAutomation, GiftCoins;
    var (coins, u) := GiftCoins(e, v);
    KeptParts(v);
    BoughtKeeps(v, u, 0);
    KeepsKept(v, u);
    CreditKeeps(u, coins);
    KeepsOn(v, u, Credit(u, coins));
  }

  lemma {:induction false} StartCoinsBounded(items: seq<C.Bonus>, upgrades: Levels, coins: int)
    requires 0 <= coins <= MAX
    ensures 0 <= StartCoins(items, upgrades, coins) <= MAX
    decreases |items|
  {
    if items != [] {
      MulMonotone(0, items[0].value, Level(upgrades, items[0].id));
      StartCoinsBounded(items[1..], upgrades,
        if items[0].effect == C.StartCoins then SatAdd(coins, items[0].value * Level(upgrades, items[0].id)) else coins);
    }
  }

  lemma RebirthKeeps(e: Env, s: Save, now: int)
    requires Kept(s)
    ensures var o := DoRebirth(e, s, now); o.Ok? ==> Keeps(s, o.value)
  {
    hide CollectFrom, StartCoins, PrestigeGain, CheckCompletion, CanRebirth, Kept;
    var o := DoRebirth(e, s, now);
    if o.Ok? {
      CollectFromKeeps(s, 0);
      var t := CollectFrom(s, 0);
      StartCoinsBounded(e.content.upgrades, t.upgrades, e.content.start.coins);
      RebornKeeps(e, t, PrestigeGain(e, t), StartCoins(e.content.upgrades, t.upgrades, e.content.start.coins), now);
      KeepsOn(s, t, o.value);
    }
  }

  lemma RebornKeeps(e: Env, t: Save, gain: nat, wallet: int, now: int)
    requires Kept(t) && Coins(wallet)
    ensures Keeps(t, CheckCompletion(Reborn(e, t, gain, wallet, now)))
  {
    hide CheckCompletion;
    CompletionKeeps(Reborn(e, t, gain, wallet, now));
  }

  lemma StartContractKeeps(e: Env, s: Save, id: ContractId, now: int)
    requires Kept(s)
    ensures var o := DoStartContract(e, s, id, now);
      o.Ok? ==> Kept(o.value) && Progress(s, o.value) && o.value.activeContract == id
  {
    hide BaseGameComplete;
  }

  lemma AbandonContractKeeps(e: Env, s: Save, now: int)
    requires Kept(s)
    ensures var o := DoAbandonContract(e, s, now); o.Ok? ==> Kept(o.value) && Progress(s, o.value)
  {
  }

  lemma SettingKeeps(e: Env, s: Save, now: int, a: Action)
    requires Kept(s) && (a.SetNameStyle? || a.SetFarmName? || a.SetFlavor? || a.SetCritters?)
    ensures var o := Do(e, s, now, a); o.Ok? ==> Keeps(s, o.value)
  {
    hide Balanced, Restricted, Complete, Definition;
    var o := Do(e, s, now, a);
    if o.Ok? {
      SameLedger(s, o.value);
    }
  }

  lemma SameLedger(s: Save, r: Save)
    requires Balanced(s) && Restricted(s) && !Complete(s)
    requires r == s.(nameStyle := r.nameStyle, farmName := r.farmName, flavorEnabled := r.flavorEnabled,
                     crittersEnabled := r.crittersEnabled)
    ensures Balanced(r) && Restricted(r) && !Complete(r)
  {
  }

  lemma KeepsProgresses(s: Save, r: Save)
    requires Keeps(s, r)
    ensures Kept(r) && Progress(s, r)
  {
  }

  lemma DoKeeps(e: Env, s: Save, now: int, a: Action)
    requires Kept(s)
    ensures var o := Do(e, s, now, a); o.Ok? ==> Kept(o.value) && Progress(s, o.value)
  {
    hide Kept, Keeps, Progress, DoPlant, DoHarvest, DoReplantAll, DoBuyPlot, DoBuyZone, DoBuyMultiplier, DoBuySeedUpgrade,
      DoUpgradePlotAuto, DoSetAutoSowCrop, DoBuyUpgrade, DoRedeemGift, DoCollectScarecrow, CollectFrom, DoBuyScarecrow,
      DoShooCritter, DoRebirth, DoStartContract, DoAbandonContract, DoSetNameStyle, DoSetFarmName;
    match a {
      case Plant(i, crop) => PlantKeeps(e, s, i, crop, now);
      case Harvest(i) => HarvestKeeps(e, s, i, now);
      case ReplantAll => ReplantKeeps(e, s, now);
      case BuyPlot => BuyPlotKeeps(e, s);
      case BuyZone(id) => BuyZoneKeeps(e, s, id);
      case BuyMultiplier(id) => BuyMultiplierKeeps(e, s, id);
      case BuySeedUpgrade(id) => BuySeedUpgradeKeeps(e, s, id);
      case UpgradePlotAuto(i, kind) => UpgradePlotKeeps(e, s, i, kind);
      case SetAutoSowCrop(i, crop) => SetAutoSowCropKeeps(e, s, i, crop);
      case BuyUpgrade(id) => BuyUpgradeKeeps(e, s, id);
      case RedeemGift => RedeemKeeps(e, s);
      case CollectScarecrow(i) => CollectKeeps(s, i);
      case CollectScarecrows => CollectFromKeeps(s, 0);
      case BuyScarecrow => BuyScarecrowKeeps(e, s);
      case ShooCritter(i) => ShooKeeps(e, s, i);
      case Rebirth => RebirthKeeps(e, s, now);
      case StartContract(id) => StartContractKeeps(e, s, id, now);
      case AbandonContract => AbandonContractKeeps(e, s, now);
      case _ => SettingKeeps(e, s, now, a);
    }
    var o := Do(e, s, now, a);
    if o.Ok? && !a.StartContract? && !a.AbandonContract? {
      KeepsProgresses(s, o.value);
    }
  }

  lemma ReplantKeeps(e: Env, s: Save, now: int)
    requires Kept(s)
    ensures Keeps(s, DoReplantAll(e, s, now))
  {
    hide Kept, Keeps;
    SowAllKeeps(s, DearestFirst(Candidates(e, s, |s.plots|, now)), now);
  }

  lemma AmbientKeeps(s: Save, r: Save)
    requires Kept(s) && r == s.(achievements := r.achievements)
    ensures Kept(r) && Stride(s, r)
  {
  }

  // An intent is accepted and keeps everything, or is refused and changes nothing.
  lemma ActKeeps(e: Env, s: Save, now: int, a: Action)
    requires Kept(s)
    ensures var (r, ok) := Act(e, s, now, a); Kept(r) && Progress(s, r) && (!ok ==> r == s)
  {
    hide Kept, Do, CheckAchievements;
    DoKeeps(e, s, now, a);
    var o := Do(e, s, now, a);
    if o.Ok? {
      AmbientKeeps(o.value, CheckAchievements(o.value, e.content.achievements, now).0);
    }
  }

  lemma PassedKeeps(s: Save, r: Save)
    requires Kept(s) && Passed(s, r) && !Complete(r) && (s.eventId == "" ==> Denied(s, r))
    ensures Keeps(s, r) && r.contractsCompleted == s.contractsCompleted && r.activeContract == s.activeContract
  {
  }

  // Time alone completes no contract.
  lemma AdvanceKeeps(e: Env, s: Save, now: int)
    requires Kept(s)
    ensures var (r, ev) := Advance(e, s, now);
      && Keeps(s, r) && r.contractsCompleted == s.contractsCompleted && r.activeContract == s.activeContract
      && ev.contractCompleted == NoContract
  {
    hide Keeps, Advance, Passed, Denied, Balanced, Complete;
    assert Balanced(s) && !Complete(s);
    AdvancePasses(e, s, now);
    PassedKeeps(s, Advance(e, s, now).0);
  }

  lemma PlayKeeps(e: Env, s: Save, m: Move)
    requires Kept(s)
    ensures Kept(Play(e, s, m)) && Progress(s, Play(e, s, m))
    ensures m.Tick? ==> Play(e, s, m).contractsCompleted == s.contractsCompleted
  {
    hide Kept, Advance, Act;
    AdvanceKeeps(e, s, m.now);
    var t := Advance(e, s, m.now).0;
    KeepsProgresses(s, t);
    if m.Intent? {
      ActKeeps(e, t, m.now, m.action);
    }
  }

  // The ledger balances, the campaign is in order and no restriction is broken after
  // any sequence of ticks and intents.
  lemma {:induction false} RunsKeep(e: Env, s: Save, moves: seq<Move>)
    requires Kept(s)
    ensures var r := PlayAll(e, s, moves);
      && Kept(r) && s.lifetimeEarnings <= r.lifetimeEarnings && s.contractsCompleted <= r.contractsCompleted
    decreases |moves|
  {
    hide Kept, Play;
    if moves != [] {
      PlayKeeps(e, s, moves[0]);
      RunsKeep(e, Play(e, s, moves[0]), moves[1..]);
    }
  }

  lemma ANewSaveIsKept(e: Env, seed: nat, now: int)
    ensures Kept(New(e, seed, now))
  {
  }

  // From a new save on, whatever is played: the wallet is what the run began with plus
  // its earnings less its payments, until those pass the largest int64; it is never
  // negative, and lifetime earnings are never behind the run's.
  lemma TheWalletIsExplained(e: Env, seed: nat, now: int, moves: seq<Move>)
    ensures var r := PlayAll(e, New(e, seed, now), moves);
      && 0 <= r.coins <= MAX && r.runEarnings <= r.lifetimeEarnings
      && (r.books.start + r.books.earned <= MAX ==> r.coins == r.books.start + r.runEarnings - r.books.spent)
  {
    ANewSaveIsKept(e, seed, now);
    RunsKeep(e, New(e, seed, now), moves);
  }

  // ---- Each completion is announced once, by the right name ----

  // The snapshot's announcement: the contract active before the call, if the call
  // completed it.
  function Announced(s: Save, r: Save): ContractId {
    if r.contractsCompleted > s.contractsCompleted then s.activeContract else NoContract
  }

  function Announcements(e: Env, s: Save, moves: seq<Move>): seq<ContractId>
    decreases |moves|
  {
    if moves == [] then []
    else
      var t := Play(e, s, moves[0]);
      (if Announced(s, t) == NoContract then [] else [Announced(s, t)]) + Announcements(e, t, moves[1..])
  }

  function Contracts(first: int, end: int): seq<ContractId>
    requires first <= end
    decreases end - first
  {
    if first == end then [] else [Definition(first)] + Contracts(first + 1, end)
  }

  // Over any run the announcements are exactly the contracts completed, in campaign
  // order, each once.
  lemma {:induction false} EveryCompletionIsAnnouncedOnce(e: Env, s: Save, moves: seq<Move>)
    requires Kept(s)
    ensures var r := PlayAll(e, s, moves);
      && 0 <= s.contractsCompleted <= r.contractsCompleted
      && Announcements(e, s, moves) == Contracts(s.contractsCompleted, r.contractsCompleted)
    decreases |moves|
  {
    hide Balanced, Restricted, Complete, Play;
    if moves != [] {
      var t := Play(e, s, moves[0]);
      PlayKeeps(e, s, moves[0]);
      EveryCompletionIsAnnouncedOnce(e, t, moves[1..]);
    }
  }

  // ---- Lean Season's land ----

  predicate LeanLand(s: Save) {
    s.activeContract.LeanSeason? ==> |s.plots| <= LEAN_PLOTS
  }

  // An accepted purchase of a zone, if this is one, leaves the farm within the cap.
  predicate ZoneFits(e: Env, s: Save, a: Action) {
    a.BuyZone? && s.activeContract.LeanSeason? && DoBuyZone(e, s, a.id).Ok? ==>
      |s.plots| + C.ZoneIn(e.content.zones, a.id).value.extraPlots <= LEAN_PLOTS
  }

  // The same land, or no longer under the contract.
  predicate NoLandGained(s: Save, r: Save) {
    |r.plots| == |s.plots| && (r.activeContract.LeanSeason? ==> s.activeContract.LeanSeason?)
  }

  lemma CompletionGainsNoLand(s: Save)
    ensures NoLandGained(s, CheckCompletion(s))
  {
  }

  lemma CreditGainsNoLand(s: Save, amount: int)
    ensures NoLandGained(s, Credit(s, amount)) && NoLandGained(s, CreditStarseeds(s, amount))
  {
    hide CheckCompletion;
    CompletionGainsNoLand(Credited(s, amount));
    CompletionGainsNoLand(s.(starseeds := SatAdd(s.starseeds, amount),
                             contractStarseeds := SatAdd(s.contractStarseeds, amount)));
  }

  lemma {:induction false} CollectingGainsNoLand(s: Save, i: nat)
    ensures NoLandGained(s, CollectFrom(s, i))
    decreases |s.pouches| - i
  {
    hide Credit;
    if i < |s.pouches| {
      var o := DoCollectScarecrow(s, i);
      if o.Ok? {
        CreditGainsNoLand(s.(pouches := s.pouches[i := 0]), s.pouches[i]);
        CollectingGainsNoLand(o.value, i + 1);
      } else {
        CollectingGainsNoLand(s, i + 1);
      }
    }
  }

  lemma {:induction false} SowingGainsNoLand(s: Save, cands: seq<Candidate>, now: int)
    ensures NoLandGained(s, SowAll(s, cands, now))
    decreases |cands|
  {
    if cands != [] {
      SowingGainsNoLand(Sow(s, cands[0], now), cands[1..], now);
    }
  }

  lemma HarvestGainsNoLand(e: Env, s: Save, i: int, now: int)
    ensures var o := DoHarvest(e, s, i, now); o.Ok? ==> NoLandGained(s, o.value)
  {
    hide HarvestPayout, Credit, GrowSeconds;
    var o := DoHarvest(e, s, i, now);
    if o.Ok? {
      var (y, t) := HarvestPayout(e, s, C.CropIn(e.content.crops, s.plots[i].crop).value, now);
      CreditGainsNoLand(t, y.payout);
      CreditGainsNoLand(Credit(t, y.payout), y.discovery);
    }
  }

  lemma RedeemGainsNoLand(e: Env, s: Save)
    ensures var o := DoRedeemGift(e, s); o.Ok? ==> NoLandGained(s, o.value)
  {
    hide Credit, CreditStarseeds, GiftCoins, FloorSqrt, Roll, Quo;
    var t := s.(giftPending := false, giftArrivedAt := 0);
    var rebirths := ProgressionRebirths(s);
    var (roll, v) := if rebirths >= 1 then Roll(e, t, 100) else (100, t);
    RollDraws(e, t);
    CreditGainsNoLand(v, FloorSqrt(Quo(v.runEarnings, e.content.prestige.divisor)) + 1 + rebirths);
    var (coins, u) := GiftCoins(e, v);
    CreditGainsNoLand(u, coins);
  }

  lemma ShooGainsNoLand(e: Env, s: Save, i: int)
    ensures var o := DoShooCritter(e, s, i); o.Ok? ==> NoLandGained(s, o.value)
  {
    hide Credit, SatMul;
    var o := DoShooCritter(e, s, i);
    if o.Ok? {
      var (base, t) := RollRange(e, s, e.content.critters.shooMin, e.content.critters.shooMax);
      CreditGainsNoLand(t.(plots := s.plots[i := s.plots[i].(critter := "")]),
        Quo(SatMul(base, I64(100 + I64(e.content.critters.rebirthBonusPct * ProgressionRebirths(s)))), 100));
    }
  }

  lemma CollectOneGainsNoLand(s: Save, i: int)
    ensures var o := DoCollectScarecrow(s, i); o.Ok? ==> NoLandGained(s, o.value)
  {
    hide Credit;
    if 0 <= i < |s.pouches| {
      CreditGainsNoLand(s.(pouches := s.pouches[i := 0]), s.pouches[i]);
    }
  }

  lemma RebirthKeepsLand(e: Env, s: Save, now: int)
    requires e.content.start.plots <= LEAN_PLOTS
    ensures var o := DoRebirth(e, s, now); o.Ok? ==> LeanLand(o.value)
  {
    hide CollectFrom, StartCoins, PrestigeGain, CanRebirth;
  }

  lemma LandMovesKeepLand(e: Env, s: Save, now: int, a: Action)
    requires e.content.start.plots <= LEAN_PLOTS && LeanLand(s)
    requires a.BuyPlot? || a.StartContract? || a.AbandonContract?
    ensures var o := Do(e, s, now, a); o.Ok? ==> LeanLand(o.value)
  {
    hide NextPlotCost, ContractsAvailable;
  }

  lemma ZonesKeepLandIfTheyFit(e: Env, s: Save, id: string)
    requires LeanLand(s)
    ensures var o := DoBuyZone(e, s, id); o.Ok? ==> (LeanLand(o.value) <==> ZoneFits(e, s, BuyZone(id)))
  {
    hide Unlocked;
  }

  lemma PlantGainsNoLand(e: Env, s: Save, i: int, crop: string, now: int)
    ensures var o := DoPlant(e, s, i, crop, now); o.Ok? ==> NoLandGained(s, o.value)
  {
    hide SeedCost, Unlocked, SeasonalPlantable, MercyPlantEligible;
  }

  lemma AutomatingGainsNoLand(e: Env, s: Save, i: int, kind: Automatic)
    ensures var o := DoUpgradePlotAuto(e, s, i, kind); o.Ok? ==> NoLandGained(s, o.value)
  {
    hide PlotAutoHarvestCost;
  }

  lemma QueueingGainsNoLand(e: Env, s: Save, i: int, crop: string)
    ensures var o := DoSetAutoSowCrop(e, s, i, crop); o.Ok? ==> NoLandGained(s, o.value)
  {
    hide Unlocked;
  }

  lemma ShoppingGainsNoLand(e: Env, s: Save, now: int, a: Action)
    requires a.BuyMultiplier? || a.BuySeedUpgrade? || a.BuyUpgrade? || a.BuyScarecrow?
    ensures var o := Do(e, s, now, a); o.Ok? ==> NoLandGained(s, o.value)
  {
    hide Unlocked, LevelCost, ScarecrowCost;
  }

  lemma SettingGainsNoLand(e: Env, s: Save, now: int, a: Action)
    requires a.SetNameStyle? || a.SetFarmName? || a.SetFlavor? || a.SetCritters?
    ensures var o := Do(e, s, now, a); o.Ok? ==> NoLandGained(s, o.value)
  {
  }

  lemma DoKeepsLand(e: Env, s: Save, now: int, a: Action)
    requires e.content.start.plots <= LEAN_PLOTS && LeanLand(s)
    ensures var o := Do(e, s, now, a); o.Ok? ==> (LeanLand(o.value) <==> ZoneFits(e, s, a))
  {
    hide DoPlant, DoHarvest, DoBuyPlot, DoBuyZone, DoBuyMultiplier, DoBuySeedUpgrade, DoUpgradePlotAuto,
      DoSetAutoSowCrop, DoBuyUpgrade, DoRedeemGift, DoCollectScarecrow, CollectFrom, DoBuyScarecrow,
      DoShooCritter, DoRebirth, DoStartContract, DoAbandonContract, DoSetNameStyle, DoSetFarmName, SowAll;
    match a
    case Harvest(i) => HarvestGainsNoLand(e, s, i, now);
    case ReplantAll => SowingGainsNoLand(s, DearestFirst(Candidates(e, s, |s.plots|, now)), now);
    case BuyPlot => LandMovesKeepLand(e, s, now, a);
    case BuyZone(id) => ZonesKeepLandIfTheyFit(e, s, id);
    case RedeemGift => RedeemGainsNoLand(e, s);
    case CollectScarecrow(i) => CollectOneGainsNoLand(s, i);
    case CollectScarecrows => CollectingGainsNoLand(s, 0);
    case ShooCritter(i) => ShooGainsNoLand(e, s, i);
    case Rebirth => RebirthKeepsLand(e, s, now);
    case StartContract(_) => LandMovesKeepLand(e, s, now, a);
    case AbandonContract => LandMovesKeepLand(e, s, now, a);
    case Plant(i, crop) => PlantGainsNoLand(e, s, i, crop, now);
    case UpgradePlotAuto(i, kind) => AutomatingGainsNoLand(e, s, i, kind);
    case SetAutoSowCrop(i, crop) => QueueingGainsNoLand(e, s, i, crop);
    case BuyMultiplier(_) => ShoppingGainsNoLand(e, s, now, a);
    case BuySeedUpgrade(_) => ShoppingGainsNoLand(e, s, now, a);
    case BuyUpgrade(_) => ShoppingGainsNoLand(e, s, now, a);
    case BuyScarecrow => ShoppingGainsNoLand(e, s, now, a);
    case _ => SettingGainsNoLand(e, s, now, a);
  }

  // Every zone bought on the way fits.
  predicate ZonesFit(e: Env, s: Save, moves: seq<Move>)
    decreases |moves|
  {
    moves != [] ==>
      && (moves[0].Intent? ==> ZoneFits(e, Advance(e, s, moves[0].now).0, moves[0].action))
      && ZonesFit(e, Play(e, s, moves[0]), moves[1..])
  }

  predicate AlwaysSmall(e: Env, s: Save, moves: seq<Move>)
    decreases |moves|
  {
    LeanLand(s) && (moves != [] ==> AlwaysSmall(e, Play(e, s, moves[0]), moves[1..]))
  }

  lemma PlayKeepsLand(e: Env, s: Save, m: Move)
    requires e.content.start.plots <= LEAN_PLOTS && Kept(s) && LeanLand(s)
    ensures LeanLand(Play(e, s, m)) <==> (m.Intent? ==> ZoneFits(e, Advance(e, s, m.now).0, m.action))
  {
    hide Kept, Do, Advance, ZoneFits;
    var t := Advance(e, s, m.now).0;
    AdvanceGainsNoLand(e, s, m.now);
    if m.Intent? {
      DoKeepsLand(e, t, m.now, m.action);
      RefusedFits(e, t, m.now, m.action);
    }
  }

  lemma RefusedFits(e: Env, s: Save, now: int, a: Action)
    ensures Do(e, s, now, a).Err? ==> ZoneFits(e, s, a)
  {
  }

  // The six-plot cap guards plot purchases and the greenhouse only. From within it, every
  // state of a run under Lean Season is within it exactly when every zone the run bought
  // still fitted.
  lemma {:induction false} TheCapHoldsExactlyWhenZonesFit(e: Env, s: Save, moves: seq<Move>)
    requires e.content.start.plots <= LEAN_PLOTS && Kept(s) && LeanLand(s)
    ensures AlwaysSmall(e, s, moves) <==> ZonesFit(e, s, moves)
    decreases |moves|
  {
    hide Kept, LeanLand, Play, Advance, ZoneFits;
    if moves != [] {
      PlayKeepsLand(e, s, moves[0]);
      PlayKeeps(e, s, moves[0]);
      if LeanLand(Play(e, s, moves[0])) {
        TheCapHoldsExactlyWhenZonesFit(e, Play(e, s, moves[0]), moves[1..]);
      }
    }
  }

  lemma {:induction false} OnlyTheGreenhouseFits(e: Env, s: Save, moves: seq<Move>)
    requires forall z :: z in e.content.zones ==> z.id == "greenhouse"
    ensures ZonesFit(e, s, moves)
    decreases |moves|
  {
    hide Play, Advance;
    if moves != [] {
      OnlyTheGreenhouseFits(e, Play(e, s, moves[0]), moves[1..]);
    }
  }

  // So with no other zone on sale, no run under Lean Season ever has more than six plots.
  lemma LeanSeasonStaysSmall(e: Env, s: Save, moves: seq<Move>)
    requires e.content.start.plots <= LEAN_PLOTS && (forall z :: z in e.content.zones ==> z.id == "greenhouse")
    requires Kept(s) && LeanLand(s)
    ensures AlwaysSmall(e, s, moves)
  {
    hide Kept, LeanLand;
    OnlyTheGreenhouseFits(e, s, moves);
    TheCapHoldsExactlyWhenZonesFit(e, s, moves);
  }

  lemma AdvanceGainsNoLand(e: Env, s: Save, now: int)
    requires Kept(s)
    ensures NoLandGained(s, Advance(e, s, now).0)
  {
    hide Advance, Balanced;
    AdvancePasses(e, s, now);
  }
}
