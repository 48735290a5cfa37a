// The engine as it runs: one save behind a pointer, updated field by field. Each method
// does what the function of the same step says, so everything proved of those functions
// is true of these bodies; a refused intent leaves the save as it was.
module Farm {
  import opened Common
  import opened Money
  import opened FarmState
  import opened FarmAdvance
  import opened FarmActions
  import C = Content
  import FS = FarmState
  import FA = FarmAdvance
  import FX = FarmActions
  import Id = Identity
  import R = Replant
  import P = FastPath
  import L = Luck
  import M = Mercy

  // An intent's outcome told by its error and the save it leaves.
  predicate Answers(o: Outcome, err: Option<Refusal>, before: Save, after: Save) {
    match o
    case Ok(t) => err == None && after == t
    case Err(r) => err == Some(r) && after == before
  }

  class Farm {
    const env: Env
    var save: Save

    constructor (env: Env, seed: nat, now: int)
      ensures this.env == env && save == FS.New(env, seed, now)
    {
      this.env, save := env, FS.New(env, seed, now);
    }

    // ---- Rolls ----

    method Roll(n: nat) returns (k: nat)
      requires n > 0
      modifies this
      ensures (k, save) == FS.Roll(env, old(save), n)
    {
      k := env.dice(save.seed, save.draws) % n;
      save := save.(draws := save.draws + 1);
    }

    method RollRange(lo: int, hi: int) returns (x: int)
      modifies this
      ensures (x, save) == FS.RollRange(env, old(save), lo, hi)
    {
      if hi <= lo {
        return lo;
      }
      var k := Roll(hi - lo + 1);
      x := lo + k;
    }

    // ---- Money ----

    method GoalReached() returns (complete: bool)
      ensures complete == Complete(save)
    {
      match save.activeContract
      case BareHands => complete := save.contractEarnings >= 100_000;
      case LeanSeason => complete := save.contractStarseeds >= 100;
      case ClockworkDenied => complete := save.contractRebirths >= 5;
      case NoContract => complete := false;
    }

    method CheckContractCompletion() returns (complete: bool)
      modifies this
      ensures save == FS.CheckCompletion(old(save)) && complete == Complete(old(save))
    {
      hide Complete;
      complete := GoalReached();
      if complete {
        var completed := save.contractsCompleted + 1;
        if completed > CONTRACTS {
          completed := CONTRACTS;
        }
        save := save.(contractsCompleted := completed, activeContract := NoContract);
        save := save.(contractRebirths := 0, contractEarnings := 0, contractStarseeds := 0);
      }
    }

    method Credit(amount: int)
      modifies this
      ensures save == FS.Credit(old(save), amount)
    {
      hide FS.CheckCompletion;
      if amount <= 0 {
        return;
      }
      save := save.(coins := SatAdd(save.coins, amount));
      save := save.(runEarnings := SatAdd(save.runEarnings, amount));
      save := save.(lifetimeEarnings := SatAdd(save.lifetimeEarnings, amount));
      save := save.(books := save.books.(earned := save.books.earned + amount));
      if save.activeContract != NoContract {
        save := save.(contractEarnings := SatAdd(save.contractEarnings, amount));
        var _ := CheckContractCompletion();
      }
    }

    method CreditStarseeds(amount: int)
      modifies this
      ensures save == FS.CreditStarseeds(old(save), amount)
    {
      hide FS.CheckCompletion;
      if amount <= 0 {
        return;
      }
      save := save.(starseeds := SatAdd(save.starseeds, amount));
      if save.activeContract != NoContract {
        save := save.(contractStarseeds := SatAdd(save.contractStarseeds, amount));
        var _ := CheckContractCompletion();
      }
    }

    // A payment, and its entry in the history the ledger is stated over.
    method Pay(cost: int)
      modifies this
      ensures save == FS.Pay(old(save), cost)
    {
      save := save.(coins := save.coins - cost);
      save := save.(books := save.books.(spent := save.books.spent + cost));
    }

    // ---- Sums ----

    static method EffectTotal(items: seq<C.Bonus>, levels: Levels, effect: C.Effect) returns (sum: nat)
      ensures sum == EffectSum(items, levels, effect)
    {
      sum := 0;
      for i := 0 to |items|
        invariant sum + EffectSum(items[i..], levels, effect) == EffectSum(items, levels, effect)
      {
        assert items[i..][1..] == items[i + 1..];
        if items[i].effect == effect {
          sum := sum + items[i].value * Level(levels, items[i].id);
        }
      }
    }

    method CheapestUnlockedCrop() returns (best: Option<C.Crop>)
      ensures best == CheapestUnlocked(save, env.content.crops, None)
      ensures best.None? ==> forall j :: 0 <= j < |env.content.crops| ==> !Unlocked(save, env.content.crops[j].unlock)
      ensures best.Some? ==> exists k: nat :: M.FirstCheapest(save, env.content.crops, k) && env.content.crops[k] == best.value
    {
      hide Unlocked;
      ghost var cheapest := M.TheCheapestIsCheapest(save, env.content.crops);
      var crops := env.content.crops;
      best := None;
      for i := 0 to |crops|
        invariant CheapestUnlocked(save, crops[i..], best) == CheapestUnlocked(save, crops, None)
      {
        assert crops[i..][1..] == crops[i + 1..];
        if Unlocked(save, crops[i].unlock) && (best.None? || crops[i].seedCost < best.value.seedCost) {
          best := Some(crops[i]);
        }
      }
    }

    method ScarecrowPouchTotal() returns (total: int)
      ensures total == PouchTotal(save.pouches, 0)
    {
      total := 0;
      for i := 0 to |save.pouches|
        invariant PouchTotal(save.pouches[i..], total) == PouchTotal(save.pouches, 0)
      {
        assert save.pouches[i..][1..] == save.pouches[i + 1..];
        total := SatAdd(total, save.pouches[i]);
      }
    }

    method StartWallet() returns (coins: int)
      ensures coins == StartCoins(env.content.upgrades, save.upgrades, env.content.start.coins)
    {
      var items := env.content.upgrades;
      coins := env.content.start.coins;
      for i := 0 to |items|
        invariant StartCoins(items[i..], save.upgrades, coins)
               == StartCoins(items, save.upgrades, env.content.start.coins)
      {
        assert items[i..][1..] == items[i + 1..];
        if items[i].effect == C.StartCoins {
          coins := SatAdd(coins, items[i].value * Level(save.upgrades, items[i].id));
        }
      }
    }

    method PlotPrice() returns (cost: Option<int>)
      ensures cost == NextPlotCost(env, save)
    {
      hide LadderPrice, EffectSum;
      var land := env.content.land;
      if CapsLand(save) && |save.plots| >= LEAN_PLOTS {
        return None;
      }
      if env.content.start.plots + save.purchasedPlots >= land.maxPlots {
        return None;
      }
      var price := ClimbLadder(land.basePlotCost, land.growthPct, save.purchasedPlots);
      var discount := EffectTotal(env.content.upgrades, save.upgrades, C.PlotDiscount);
      if discount >= 100 {
        discount := 99;
      }
      price := Quo(I64(price * (100 - discount)), 100);
      if price < 1 {
        price := 1;
      }
      cost := Some(price);
    }

    method AutoHarvestPrice() returns (cost: int)
      ensures cost == PlotAutoHarvestCost(env, save)
    {
      hide LadderPrice;
      var n := 0;
      for i := 0 to |save.plots|
        invariant n >= 0 && n + AutoHarvestCount(save.plots[i..]) == AutoHarvestCount(save.plots)
      {
        assert save.plots[i..][1..] == save.plots[i + 1..];
        if save.plots[i].autoHarvest {
          n := n + 1;
        }
      }
      cost := ClimbLadder(env.content.automation.harvestBaseCost, env.content.automation.harvestGrowthPct, n);
      if cost < 1 {
        cost := 1;
      }
    }

    static method LevelPrice(base: C.price, growthPct: C.growth, maxLevel: C.pos, level: nat) returns (cost: Option<int>)
      ensures cost == LevelCost(base, growthPct, maxLevel, level)
    {
      if level >= maxLevel {
        return None;
      }
      var price := ClimbLadder(base, growthPct, level);
      cost := Some(price);
    }

    // ---- Harvests ----

    method HarvestPayout(crop: C.Crop, now: int) returns (payout: int, discovery: int, failed: bool, golden: bool)
      modifies this
      ensures (Yield(payout, discovery, failed, golden), save) == FA.HarvestPayout(env, old(save), crop, now)
    {
      hide SellMultiplied, SalvageBase;
      var base := crop.sellValue;
      failed, golden, discovery := false, false, 0;
      if crop.archetype.Risky? {
        var roll := Roll(100);
        if roll < crop.failChancePct {
          base, failed := SalvageBase(save, crop), true;
        }
      }
      SellIgnoresDraws(env, old(save), save, crop, base, now);
      payout := SellMultiplied(env, save, base, crop.id, now);
      if env.content.golden.chancePct > 0 {
        var roll := Roll(100);
        if roll < env.content.golden.chancePct {
          payout, golden := GoldenPayout(env, payout), true;
        }
      }
      if env.content.flavor.enabled && save.flavorEnabled && env.content.flavor.chancePct > 0 {
        var roll := Roll(100);
        if roll < env.content.flavor.chancePct {
          discovery := RollRange(env.content.flavor.min, env.content.flavor.max);
        }
      }
    }

    method Reap(crop: C.Crop, matureAt: int, ev: Report) returns (ev': Report)
      modifies this
      ensures (save, ev') == FA.Reap(env, old(save), crop, matureAt, ev)
    {
      hide FA.HarvestPayout, FS.Credit;
      var payout, discovery, failed, golden := HarvestPayout(crop, matureAt);
      Credit(payout);
      ev' := ev.(autoCoins := SatAdd(ev.autoCoins, payout));
      if failed {
        ev' := ev'.(failed := Bump(ev'.failed, crop.id, 1));
      }
      if golden {
        ev' := ev'.(golden := ev'.golden + 1);
      }
      Credit(discovery);
      if discovery > 0 {
        ev' := ev'.(discoveries := ev'.discoveries + 1, discoveryCoins := ev'.discoveryCoins + discovery);
      }
      save := save.(lifetimeHarvests := SatAdd(save.lifetimeHarvests, 1));
      ev' := ev'.(autoHarvested := Bump(ev'.autoHarvested, crop.id, 1));
    }

    method SetPlot(i: nat, plot: Plot)
      requires i < |save.plots|
      modifies this
      ensures save == old(save).(plots := old(save).plots[i := plot])
    {
      save := save.(plots := save.plots[i := plot]);
    }

    // The replanting half of a cycle: the crop now growing, or None for a plot left empty.
    method Replant(i: nat, crop: C.Crop, matureAt: int, to: int, ev: Report) returns (ev': Report, growing: Option<C.Crop>)
      requires i < |save.plots|
      modifies this
      ensures (save, ev', growing) == FA.Replant(env, old(save), i, crop, matureAt, to, ev)
    {
      hide SeedCost, Unlocked, SeasonalPlantable, FS.Pay;
      PayLeavesPlots(save, SeedCost(env, save, SowCrop(env, save.plots[i], crop)));
      var plot := save.plots[i];
      if plot.autoSow {
        var sow := SowCrop(env, plot, crop);
        var cost := SeedCost(env, save, sow);
        if save.coins >= cost && Unlocked(save, sow.unlock) && SeasonalPlantable(env, sow.unlock, to) {
          Pay(cost);
          SetPlot(i, Resown(plot, sow, crop, matureAt));
          ev' := ev.(autoCoins := ev.autoCoins - cost);
          growing := Some(if sow.id != crop.id then sow else crop);
          return;
        }
      }
      SetPlot(i, plot.(crop := "", plantedAt := 0));
      ev', growing := ev, None;
    }

    method Batch(i: nat, crop: C.Crop, grow: C.pos, matureAt: int, to: int, ev: Report) returns (ev': Report)
      requires i < |save.plots| && matureAt <= to
      modifies this
      ensures (save, ev') == FA.Batch(env, old(save), i, crop, grow, matureAt, to, ev)
    {
      hide SeedCost, ExpectedPayout, FS.Credit, SatMul;
      var remaining := (to - matureAt) / grow;
      var n := remaining + 1;
      var totalGross := SatMul(ExpectedPayout(env, save, crop, matureAt), n);
      var totalSeeds := SatMul(SeedCost(env, save, crop), n);
      Credit(totalGross);
      if totalSeeds > save.coins {
        totalSeeds := save.coins;
      }
      Pay(totalSeeds);
      ev' := ev.(autoCoins := SatAdd(ev.autoCoins, totalGross - totalSeeds),
                 autoHarvested := Bump(ev.autoHarvested, crop.id, n));
      save := save.(lifetimeHarvests := SatAdd(save.lifetimeHarvests, n));
      SetPlot(i, save.plots[i].(plantedAt := matureAt + remaining * grow));
    }

    // The loop over one automatic plot. Whatever the content, it turns at most once
    // more than the cap.
    method WorkPlot(i: nat, first: C.Crop, to: int, ev: Report) returns (ev': Report, ghost turns: nat)
      requires i < |save.plots|
      modifies this
      ensures var grow := GrowSeconds(env, old(save), first);
        (save, ev') == Cycles(env, old(save), i, first, grow, old(save).plots[i].plantedAt + grow, 0, to, ev)
      ensures var grow := GrowSeconds(env, old(save), first);
        turns == P.Turns(env, old(save), i, first, grow, old(save).plots[i].plantedAt + grow, 0, to, ev)
      ensures turns <= AUTO_CYCLE_CAP + 1
    {
      hide SeedCost, Unlocked, SeasonalPlantable, ExpectedPayout, GrowSeconds, FA.Reap, FA.Replant, FA.Batch;
      ev', turns := ev, 0;
      var crop := first;
      var grow := GrowSeconds(env, save, crop);
      var matureAt := save.plots[i].plantedAt + grow;
      var cycles := 0;
      ghost var whole := Cycles(env, save, i, crop, grow, matureAt, cycles, to, ev');
      ghost var all := P.Turns(env, save, i, crop, grow, matureAt, cycles, to, ev');
      P.TheLoopIsBounded(env, save, i, crop, grow, matureAt, cycles, to, ev');
      while matureAt <= to
        invariant i < |save.plots|
        invariant 0 <= cycles <= AUTO_CYCLE_CAP
        invariant turns + P.Turns(env, save, i, crop, grow, matureAt, cycles, to, ev') == all
        invariant Cycles(env, save, i, crop, grow, matureAt, cycles, to, ev')
               == whole
        decreases Max(to - matureAt + 1, 0)
      {
        turns := turns + 1;
        if cycles >= AUTO_CYCLE_CAP {
          if save.plots[i].autoSow && save.coins >= SeedCost(env, save, crop) && SeasonalPlantable(env, crop.unlock, to) {
            if ExpectedPayout(env, save, crop, matureAt) > SeedCost(env, save, crop) {
              BatchMovesOn(env, save, i, crop, grow, matureAt, to, ev');
              ev' := Batch(i, crop, grow, matureAt, to, ev');
              matureAt := save.plots[i].plantedAt + grow;
              continue;
            }
          }
          break;
        }
        ev' := Reap(crop, matureAt, ev');
        var growing;
        ev', growing := Replant(i, crop, matureAt, to, ev');
        if growing.None? {
          break;
        }
        if growing.value.id != crop.id {
          grow := GrowSeconds(env, save, growing.value);
        }
        crop := growing.value;
        matureAt := matureAt + grow;
        cycles := cycles + 1;
      }
    }

    // ---- Advance ----

    method MaybeCritterVisit(i: nat, ev: Report) returns (ev': Report)
      requires i < |save.plots|
      modifies this
      ensures (save, ev') == MaybeCritter(env, old(save), i, ev)
    {
      hide CritterCount;
      ev' := ev;
      var cr := env.content.critters;
      if !save.crittersEnabled || save.plots[i].critter != "" || cr.kinds == [] || cr.visitChancePct <= 0 {
        return;
      }
      if cr.maxActive > 0 && CritterCount(save.plots) >= cr.maxActive {
        return;
      }
      var roll := Roll(100);
      if roll >= cr.visitChancePct {
        return;
      }
      var k := RollRange(0, |cr.kinds| - 1);
      SetPlot(i, save.plots[i].(critter := cr.kinds[k]));
      ev' := ev.(critterVisits := ev.critterVisits + [cr.kinds[k]]);
    }

    method SettlePlots(from: int, to: int, online: bool, ev: Report) returns (ev': Report)
      modifies this
      ensures (save, ev') == FA.SettlePlots(env, old(save), 0, from, to, online, ev)
    {
      hide Cycles, MaybeCritter, GrowSeconds, BlocksAutomation;
      ghost var start := save;
      ev' := ev;
      var i := 0;
      while i < |save.plots|
        invariant 0 <= i <= |save.plots|
        invariant FA.SettlePlots(env, save, i, from, to, online, ev') == FA.SettlePlots(env, start, 0, from, to, online, ev)
        decreases |save.plots| - i
      {
        var plot := save.plots[i];
        if plot.crop == "" {
          if online {
            ev' := MaybeCritterVisit(i, ev');
          }
        } else {
          var crop := C.CropIn(env.content.crops, plot.crop);
          if crop.Some? {
            var matureAt := plot.plantedAt + GrowSeconds(env, save, crop.value);
            if !plot.autoHarvest || BlocksAutomation(save) {
              if matureAt > from && matureAt <= to {
                ev' := ev'.(matured := Bump(ev'.matured, crop.value.id, 1));
              }
            } else {
              ghost var turns;
              ev', turns := WorkPlot(i, crop.value, to, ev');
            }
          }
        }
        i := i + 1;
      }
    }

    method AdvanceScarecrows(elapsed: int, online: bool, ev: Report) returns (ev': Report)
      requires elapsed >= 0
      modifies this
      ensures (save, ev') == FA.AdvanceScarecrows(env, old(save), elapsed, online, ev)
    {
      hide ScarecrowDrop, SatMul, ClockRate;
      ev' := ev;
      var sc := env.content.scarecrow;
      if ScarecrowsIdle(env, save) {
        return;
      }
      var target := ClockTarget(env);
      save := save.(scarecrowClock := SatAdd(Max(save.scarecrowClock, 0), SatMul(elapsed, ClockRate(env, online))));
      var drops := save.scarecrowClock / target;
      save := save.(scarecrowClock := save.scarecrowClock % target);
      if drops <= 0 {
        return;
      }
      ghost var filled := save;
      var i := 0;
      while i < |save.pouches|
        invariant 0 <= i <= |save.pouches| == |filled.pouches|
        invariant FillPouches(env, save, i, drops, ev') == FillPouches(env, filled, 0, drops, ev)
        decreases |save.pouches| - i
      {
        var gained := GatherDrops(drops);
        save := save.(pouches := save.pouches[i := SatAdd(save.pouches[i], gained)]);
        ev' := ev'.(scarecrowCoins := SatAdd(ev'.scarecrowCoins, gained));
        i := i + 1;
      }
    }

    // One scarecrow's drops: rolled up to the cap, the rest at the mean.
    method GatherDrops(drops: nat) returns (gained: int)
      modifies this
      ensures (gained, save) == DropsFor(env, old(save), drops)
    {
      hide ScarecrowDrop, SatMul;
      ghost var start := save;
      var sc := env.content.scarecrow;
      var rolled := if drops < SCARECROW_ROLL_CAP then drops else SCARECROW_ROLL_CAP;
      gained := 0;
      var k := 0;
      while k < rolled
        invariant 0 <= k <= rolled
        invariant RollDrops(env, save, rolled - k, gained) == RollDrops(env, start, rolled, 0)
      {
        var base := RollRange(sc.coinsMin, sc.coinsMax);
        gained := SatAdd(gained, ScarecrowDrop(env, save, base));
        k := k + 1;
      }
      if drops > rolled {
        var mean := ScarecrowDrop(env, save, (sc.coinsMin + sc.coinsMax) / 2);
        gained := SatAdd(gained, SatMul(mean, drops - rolled));
      }
    }

    method RollGiftArrival(elapsed: int, online: bool, to: int, ev: Report) returns (ev': Report)
      modifies this
      ensures (save, ev') == FA.RollGift(env, old(save), elapsed, online, to, ev)
      ensures !ev.giftArrived ==> L.ParcelRolled(old(save), save, to, ev'.giftArrived)
    {
      hide GiftChance;
      ev' := ev;
      if save.giftPending {
        return;
      }
      var chance := GiftChance(env, save, elapsed, online);
      if chance > 0 {
        var roll := Roll(10000);
        if roll < chance {
          save := save.(giftPending := true, giftArrivedAt := to);
          ev' := ev.(giftArrived := true);
        }
      }
    }

    method RollOnlineEvent(elapsed: int, to: int, ev: Report) returns (ev': Report)
      modifies this
      ensures (save, ev') == FA.RollEvent(env, old(save), elapsed, to, ev)
    {
      hide EventInterval, EventDurations;
      ev' := ev;
      if env.content.events == [] || (save.eventId != "" && to < save.eventEndsAt) {
        return;
      }
      var (lo, hi) := EventInterval(env, save);
      var wait := RollRange(0, hi - lo);
      IntervalPositive(env, old(save));
      var chance := elapsed * 10000 / (lo + wait);
      if chance < 1 {
        chance := 1;
      }
      var roll := Roll(10000);
      if roll >= chance {
        return;
      }
      var k := RollRange(0, |env.content.events| - 1);
      var (shortest, longest) := EventDurations(env, save);
      var extra := RollRange(0, longest - shortest);
      save := save.(eventId := env.content.events[k].id);
      save := save.(eventStartedAt := to, eventEndsAt := to + shortest + extra);
      ev' := ev.(eventStarted := env.content.events[k].id);
    }

    method Advance(to: int) returns (ev: Report)
      modifies this
      ensures (save, ev) == FA.Advance(env, old(save), to)
    {
      hide FA.RollEvent, FA.RollGift, FA.AdvanceScarecrows, FA.SettlePlots, FA.CheckAchievements;
      if to <= save.updatedAt {
        return NoReport;
      }
      var from := save.updatedAt;
      var elapsed := to - from;
      var online := elapsed <= ONLINE_THRESHOLD;
      var activeContract, contractsDone := save.activeContract, save.contractsCompleted;
      ev := Arrive(to);
      ev := AdvanceScarecrows(elapsed, online, ev);
      ev := SettlePlots(from, to, online, ev);
      save := save.(updatedAt := to);
      var newly := CheckAchievements(to);
      ev := ev.(achievements := newly);
      if save.contractsCompleted > contractsDone {
        ev := ev.(contractCompleted := activeContract);
      } else {
        ev := ev.(contractCompleted := NoContract);
      }
    }

    // Events and parcels, the part of Advance before the scarecrows.
    method Arrive(to: int) returns (ev: Report)
      requires to > save.updatedAt
      modifies this
      ensures (save, ev) == Arrivals(env, old(save), to)
    {
      hide FA.RollEvent, FA.RollGift, BlocksEvents, BlocksGifts;
      var elapsed := to - save.updatedAt;
      var online := elapsed <= ONLINE_THRESHOLD;
      ev := NoReport.(elapsed := elapsed);
      if BlocksEvents(save) && save.eventId != "" {
        save := ClearEvent(save);
      }
      if save.eventId != "" && to >= save.eventEndsAt {
        ev := ev.(eventEnded := save.eventId);
        save := ClearEvent(save);
      }
      if online && !BlocksEvents(save) {
        ev := RollOnlineEvent(elapsed, to, ev);
      }
      if !BlocksGifts(save) {
        ev := RollGiftArrival(elapsed, online, to, ev);
      }
    }

    method CheckAchievements(now: int) returns (newly: seq<string>)
      modifies this
      ensures (save, newly) == FA.CheckAchievements(old(save), env.content.achievements, now)
      ensures M.UniqueIds(env.content.achievements) ==> M.Exactly(old(save), env.content.achievements, newly)
    {
      hide Met, M.Exactly;
      if M.UniqueIds(env.content.achievements) {
        M.NewlyIsExact(save, env.content.achievements, now);
      }
      var items := env.content.achievements;
      newly := [];
      var i := 0;
      assert items[0..] == items;
      ghost var whole := FA.CheckAchievements(save, items, now);
      while i < |items|
        invariant 0 <= i <= |items|
        invariant FA.CheckAchievements(save, items[i..], now).0 == whole.0
        invariant newly + FA.CheckAchievements(save, items[i..], now).1 == whole.1
      {
        assert items[i..][1..] == items[i + 1..];
        if items[i].id !in save.achievements && Met(save, items[i]) {
          save := save.(achievements := save.achievements[items[i].id := now]);
          newly := newly + [items[i].id];
        }
        i := i + 1;
      }
      assert items[i..] == [] && newly + [] == newly;
    }

    // ---- Planting ----

    method Plant(i: int, cropId: string, now: int) returns (err: Option<Refusal>)
      modifies this
      ensures Answers(DoPlant(env, old(save), i, cropId, now), err, old(save), save)
    {
      hide SeedCost, Unlocked, SeasonalPlantable, MercyPlantEligible, FS.Pay;
      if i < 0 || i >= |save.plots| {
        return Some(UnknownPlot);
      }
      if save.plots[i].crop != "" {
        return Some(PlotOccupied);
      }
      var crop := C.CropIn(env.content.crops, cropId);
      if crop.None? {
        return Some(UnknownCrop);
      }
      if !Unlocked(save, crop.value.unlock) || !SeasonalPlantable(env, crop.value.unlock, now) {
        return Some(Locked);
      }
      var cost := SeedCost(env, save, crop.value);
      var mercy := MercyPlantEligible(env, save, cropId);
      if !mercy && save.coins < cost {
        return Some(CantAfford);
      }
      PayLeavesPlots(save, cost);
      if !mercy {
        Pay(cost);
      }
      SetPlot(i, Planted(save.plots[i], cropId, now));
      save := save.(lastCrop := cropId);
      err := None;
    }

    // Empty plots are replanted dearest seed first while the wallet lasts.
    method ReplantAll(now: int) returns (planted: nat, spent: nat, short: nat, locked: nat)
      modifies this
      ensures save == DoReplantAll(env, old(save), now)
      ensures var order := DearestFirst(Candidates(env, old(save), |old(save).plots|, now));
        && spent == R.CostOf(order, R.Greedy(old(save).coins, order))
        && planted == Planting(R.Greedy(old(save).coins, order)) && planted + short == |order|
        && locked == LockedOut(env, old(save), |old(save).plots|, now)
    {
      hide Candidates, DearestFirst, SowAll;
      var cands;
      cands, locked := FindCandidates(now);
      var order := DearestFirst(cands);
      OrderFits(env, save, order, now);
      planted, spent, short := SowInOrder(order, now);
    }

    method FindCandidates(now: int) returns (cands: seq<Candidate>, locked: nat)
      ensures cands == Candidates(env, save, |save.plots|, now) && locked == LockedOut(env, save, |save.plots|, now)
    {
      hide CandidateAt;
      var i := 0;
      cands, locked := [], 0;
      while i < |save.plots|
        invariant 0 <= i <= |save.plots|
        invariant cands == Candidates(env, save, i, now) && locked == LockedOut(env, save, i, now)
      {
        var c := CandidateAt(env, save, i, now);
        if c.Some? {
          cands := cands + [c.value];
        } else if save.plots[i].crop == "" && Remembered(save, save.plots[i]) != "" {
          locked := locked + 1;
        }
        i := i + 1;
      }
    }

    method SowInOrder(order: seq<Candidate>, now: int) returns (planted: nat, spent: nat, short: nat)
      requires forall k :: 0 <= k < |order| ==> order[k].plot < |save.plots|
      modifies this
      ensures save == SowAll(old(save), order, now) && planted + short == |order|
      ensures var pick := R.Greedy(old(save).coins, order); spent == R.CostOf(order, pick) && planted == Planting(pick)
    {
      hide Sow, R.Greedy, R.CostOf, Planting;
      ghost var pick := R.Greedy(save.coins, order);
      ghost var whole := SowAll(save, order, now);
      planted, spent, short := 0, 0, 0;
      var i := 0;
      assert order[0..] == order;
      while i < |order|
        invariant 0 <= i <= |order| && planted + short == i
        invariant forall k :: 0 <= k < |order| ==> order[k].plot < |save.plots|
        invariant SowAll(save, order[i..], now) == whole
        invariant planted + Planting(R.Greedy(save.coins, order[i..])) == Planting(pick)
        invariant spent + R.CostOf(order[i..], R.Greedy(save.coins, order[i..])) == R.CostOf(order, pick)
      {
        GreedyStep(save.coins, order[i..]);
        SownOrShort(save, order[i], now);
        assert order[i..][1..] == order[i + 1..];
        if save.coins < order[i].cost {
          short := short + 1;
        } else {
          spent := spent + order[i].cost;
          planted := planted + 1;
          SowCandidate(order[i], now);
        }
        i := i + 1;
      }
      assert order[i..] == [];
      NothingLeft(save.coins);
    }

    method SowCandidate(c: Candidate, now: int)
      requires c.plot < |save.plots| && c.cost <= save.coins
      modifies this
      ensures save == Sow(old(save), c, now) && save.coins == old(save).coins - c.cost
      ensures |save.plots| == |old(save).plots|
    {
      Pay(c.cost);
      SetPlot(c.plot, Planted(save.plots[c.plot], c.crop, now));
      save := save.(lastCrop := c.crop);
    }

    method Harvest(i: int, now: int) returns (err: Option<Refusal>)
      modifies this
      ensures Answers(DoHarvest(env, old(save), i, now), err, old(save), save)
    {
      hide GrowSeconds, FA.HarvestPayout, FS.Credit;
      if i < 0 || i >= |save.plots| {
        return Some(UnknownPlot);
      }
      var plot := save.plots[i];
      if plot.crop == "" {
        return Some(PlotEmpty);
      }
      var crop := C.CropIn(env.content.crops, plot.crop);
      if crop.None? {
        return Some(UnknownCrop);
      }
      if now < plot.plantedAt + GrowSeconds(env, save, crop.value) {
        return Some(NotMature);
      }
      var payout, discovery, failed, golden := HarvestPayout(crop.value, now);
      Credit(payout);
      Credit(discovery);
      save := save.(lifetimeHarvests := SatAdd(save.lifetimeHarvests, 1));
      SetPlot(i, Plot("", 0, plot.autoHarvest, plot.autoSow, "", "", plot.crop));
      err := None;
    }

    // ---- Purchases ----

    method BuyPlot() returns (err: Option<Refusal>)
      modifies this
      ensures Answers(DoBuyPlot(env, old(save)), err, old(save), save)
    {
      hide NextPlotCost;
      if CapsLand(save) && |save.plots| >= LEAN_PLOTS {
        return Some(ContractRestricted);
      }
      var cost := PlotPrice();
      if cost.None? {
        return Some(Maxed);
      }
      if save.coins < cost.value {
        return Some(CantAfford);
      }
      Pay(cost.value);
      save := save.(purchasedPlots := save.purchasedPlots + 1);
      save := save.(plots := save.plots + [EmptyPlot]);
      err := None;
    }

    method BuyZone(id: string) returns (err: Option<Refusal>)
      modifies this
      ensures Answers(DoBuyZone(env, old(save), id), err, old(save), save)
    {
      hide Unlocked;
      var zone := C.ZoneIn(env.content.zones, id);
      if zone.None? {
        return Some(UnknownItem);
      }
      if save.activeContract == LeanSeason && id == "greenhouse" {
        return Some(ContractRestricted);
      }
      if id in save.zones {
        return Some(AlreadyOwned);
      }
      if !Unlocked(save, zone.value.unlock) {
        return Some(Locked);
      }
      if save.coins < zone.value.cost {
        return Some(CantAfford);
      }
      Pay(zone.value.cost);
      save := save.(zones := save.zones + {id});
      ghost var plots := save.plots;
      assert plots + seq(0, i => EmptyPlot) == plots;
      var k := 0;
      while k < zone.value.extraPlots
        invariant 0 <= k <= zone.value.extraPlots
        invariant save == FS.Pay(old(save), zone.value.cost).(zones := old(save).zones + {id}, plots := plots + seq(k, i => EmptyPlot))
      {
        save := save.(plots := save.plots + [EmptyPlot]);
        assert plots + seq(k, i => EmptyPlot) + [EmptyPlot] == plots + seq(k + 1, i => EmptyPlot);
        k := k + 1;
      }
      err := None;
    }

    method BuyMultiplier(id: string) returns (err: Option<Refusal>)
      modifies this
      ensures Answers(DoBuyMultiplier(env, old(save), id), err, old(save), save)
    {
      hide LevelCost;
      var m := C.BonusIn(env.content.multipliers, id);
      if m.None? {
        return Some(UnknownItem);
      }
      var cost := LevelPrice(m.value.cost, m.value.growthPct, m.value.maxLevel, Level(save.multipliers, id));
      if cost.None? {
        return Some(Maxed);
      }
      if save.coins < cost.value {
        return Some(CantAfford);
      }
      Pay(cost.value);
      save := save.(multipliers := save.multipliers[id := Level(save.multipliers, id) + 1]);
      err := None;
    }

    method BuySeedUpgrade(id: string) returns (err: Option<Refusal>)
      modifies this
      ensures Answers(DoBuySeedUpgrade(env, old(save), id), err, old(save), save)
    {
      hide LevelCost, Unlocked;
      var found := C.SeedUpgradeIn(env.content.seedUpgrades, id);
      if found.None? {
        return Some(UnknownItem);
      }
      var u := found.value;
      var crop := C.CropIn(env.content.crops, u.cropId);
      if crop.None? || !Unlocked(save, crop.value.unlock) {
        return Some(Locked);
      }
      var cost := LevelPrice(u.cost, u.growthPct, u.maxLevel, Level(save.seedUpgrades, u.cropId));
      if cost.None? {
        return Some(Maxed);
      }
      if save.coins < cost.value {
        return Some(CantAfford);
      }
      Pay(cost.value);
      save := save.(seedUpgrades := save.seedUpgrades[u.cropId := Level(save.seedUpgrades, u.cropId) + 1]);
      err := None;
    }

    method UpgradePlotAuto(i: int, kind: Automatic) returns (err: Option<Refusal>)
      modifies this
      ensures Answers(DoUpgradePlotAuto(env, old(save), i, kind), err, old(save), save)
    {
      hide FS.Pay, PlotAutoHarvestCost, BlocksAutomation;
      if i < 0 || i >= |save.plots| {
        return Some(UnknownPlot);
      }
      if BlocksAutomation(save) {
        return Some(ContractRestricted);
      }
      var plot := save.plots[i];
      match kind
      case AutoHarvest =>
        if plot.autoHarvest {
          return Some(AlreadyOwned);
        }
        var cost := AutoHarvestPrice();
        if save.coins < cost {
          return Some(CantAfford);
        }
        PayLeavesPlots(save, cost);
        Pay(cost);
        SetPlot(i, plot.(autoHarvest := true));
        err := None;
      case AutoSow =>
        if plot.autoSow {
          return Some(AlreadyOwned);
        }
        if !plot.autoHarvest {
          return Some(Locked);
        }
        if save.lifetimeEarnings < env.content.automation.sowMinEarnings {
          return Some(Locked);
        }
        if save.coins < env.content.automation.sowCost {
          return Some(CantAfford);
        }
        PayLeavesPlots(save, env.content.automation.sowCost);
        Pay(env.content.automation.sowCost);
        SetPlot(i, plot.(autoSow := true));
        err := None;
      case OtherKind =>
        err := Some(UnknownItem);
    }

    method SetAutoSowCrop(i: int, cropId: string) returns (err: Option<Refusal>)
      modifies this
      ensures Answers(DoSetAutoSowCrop(env, old(save), i, cropId), err, old(save), save)
    {
      hide Unlocked, BlocksAutomation;
      if i < 0 || i >= |save.plots| {
        return Some(UnknownPlot);
      }
      if BlocksAutomation(save) {
        return Some(ContractRestricted);
      }
      if !save.plots[i].autoSow {
        return Some(NoAutoSow);
      }
      var crop := C.CropIn(env.content.crops, cropId);
      if crop.None? {
        return Some(UnknownCrop);
      }
      if !Unlocked(save, crop.value.unlock) {
        return Some(Locked);
      }
      if cropId == save.plots[i].crop {
        SetPlot(i, save.plots[i].(autoSowCrop := ""));
      } else {
        SetPlot(i, save.plots[i].(autoSowCrop := cropId));
      }
      err := None;
    }

    method BuyUpgrade(id: string) returns (err: Option<Refusal>)
      modifies this
      ensures Answers(DoBuyUpgrade(env, old(save), id), err, old(save), save)
    {
      hide LevelCost;
      var u := C.BonusIn(env.content.upgrades, id);
      if u.None? {
        return Some(UnknownItem);
      }
      var cost := LevelPrice(u.value.cost, u.value.growthPct, u.value.maxLevel, Level(save.upgrades, id));
      if cost.None? {
        return Some(Maxed);
      }
      if save.starseeds < cost.value {
        return Some(CantAffordStarseeds);
      }
      save := save.(starseeds := save.starseeds - cost.value);
      save := save.(upgrades := save.upgrades[id := Level(save.upgrades, id) + 1]);
      err := None;
    }

    // ---- Scarecrows and critters ----

    method ScarecrowPrice() returns (cost: Option<int>)
      ensures cost == ScarecrowCost(env, save)
    {
      var sc := env.content.scarecrow;
      if sc.cost <= 0 || |save.pouches| >= sc.maxCount {
        return None;
      }
      var price := sc.cost;
      for k := 0 to |save.pouches|
        invariant price == SaturatingPrice(sc.cost, sc.growthPct, k)
      {
        price := SatMul(price, sc.growthPct) / 100;
      }
      cost := Some(price);
    }

    method BuyScarecrow() returns (err: Option<Refusal>)
      modifies this
      ensures Answers(DoBuyScarecrow(env, old(save)), err, old(save), save)
    {
      hide ScarecrowCost, BlocksScarecrow, ProgressionRebirths;
      if BlocksScarecrow(save) {
        return Some(ContractRestricted);
      }
      if env.content.scarecrow.cost <= 0 {
        return Some(UnknownItem);
      }
      var cost := ScarecrowPrice();
      if cost.None? {
        return Some(Maxed);
      }
      if ProgressionRebirths(save) < C.RebirthsToBuy(env.content.scarecrow, |save.pouches|) {
        return Some(Locked);
      }
      if save.coins < cost.value {
        return Some(CantAfford);
      }
      Pay(cost.value);
      save := save.(pouches := save.pouches + [0]);
      err := None;
    }

    method CollectScarecrow(i: int) returns (coins: int, err: Option<Refusal>)
      modifies this
      ensures Answers(DoCollectScarecrow(old(save), i), err, old(save), save)
      ensures coins == if err == None then old(save).pouches[i] else 0
    {
      hide FS.Credit;
      if i < 0 || i >= |save.pouches| {
        return 0, Some(UnknownScarecrow);
      }
      coins := save.pouches[i];
      if coins <= 0 {
        return 0, Some(PouchEmpty);
      }
      save := save.(pouches := save.pouches[i := 0]);
      Credit(coins);
      err := None;
    }

    method CollectScarecrows()
      modifies this
      ensures save == CollectFrom(old(save), 0)
    {
      hide DoCollectScarecrow;
      ghost var start := save;
      var i := 0;
      while i < |save.pouches|
        invariant 0 <= i <= |save.pouches|
        invariant CollectFrom(save, i) == CollectFrom(start, 0)
        decreases |save.pouches| - i
      {
        CollectingLeavesPouches(save, i);
        var coins, err := CollectScarecrow(i);
        i := i + 1;
      }
    }

    method ShooCritter(i: int) returns (err: Option<Refusal>)
      modifies this
      ensures Answers(DoShooCritter(env, old(save), i), err, old(save), save)
    {
      hide FS.Credit, SatMul, I64, Quo;
      if i < 0 || i >= |save.plots| {
        return Some(UnknownPlot);
      }
      if save.plots[i].critter == "" {
        return Some(NoCritter);
      }
      var cr := env.content.critters;
      ShooIgnoresThePlot(env, save, i);
      SetPlot(i, save.plots[i].(critter := ""));
      var base := RollRange(cr.shooMin, cr.shooMax);
      var reward := Quo(SatMul(base, I64(100 + I64(cr.rebirthBonusPct * ProgressionRebirths(save)))), 100);
      Credit(reward);
      err := None;
    }

    // ---- Gifts ----

    method GiftCoinReward() returns (coins: int)
      modifies this
      ensures (coins, save) == GiftCoins(env, old(save))
      ensures var g := env.content.gifts;
        Min(g.coinFloor, g.coinCeiling) <= coins <= g.coinCeiling
    {
      hide FloorSqrt, Quo;
      L.GiftCoinsAreBounded(env, save);
      var g := env.content.gifts;
      var base := FloorSqrt(Quo(save.runEarnings, 10)) + 10;
      base := base + ProgressionRebirths(save) * 50;
      if base < g.coinFloor {
        base := g.coinFloor;
      }
      if base > g.coinCeiling {
        base := g.coinCeiling;
      }
      var jitter := RollRange(Quo(-base, 5), Quo(base, 5));
      coins := Clamp(base + jitter, g.coinFloor, g.coinCeiling);
    }

    method RedeemGift() returns (err: Option<Refusal>)
      modifies this
      ensures Answers(DoRedeemGift(env, old(save)), err, old(save), save)
    {
      hide FloorSqrt, Quo, FS.Credit, FS.CreditStarseeds, GiftCoins, BlocksGifts;
      if BlocksGifts(save) {
        return Some(ContractRestricted);
      }
      if !save.giftPending {
        return Some(NoGift);
      }
      save := save.(giftPending := false);
      save := save.(giftArrivedAt := 0);
      var rebirths := ProgressionRebirths(save);
      var lucky := false;
      if rebirths >= 1 {
        var roll := Roll(100);
        lucky := roll < env.content.gifts.starseedChancePct;
      }
      if lucky {
        CreditStarseeds(FloorSqrt(Quo(save.runEarnings, env.content.prestige.divisor)) + 1 + rebirths);
      } else {
        var coins := GiftCoinReward();
        Credit(coins);
      }
      err := None;
    }

    // ---- Rebirth and contracts ----

    method Rebirth(now: int) returns (gain: nat, err: Option<Refusal>)
      modifies this
      ensures Answers(DoRebirth(env, old(save), now), err, old(save), save)
      ensures err == None ==> gain == PrestigeGain(env, CollectFrom(old(save), 0))
    {
      hide CanRebirth, PrestigeGain, CollectFrom, FS.CheckCompletion, StartCoins;
      if !CanRebirth(env, save) {
        return 0, Some(RebirthTooSoon);
      }
      CollectScarecrows();
      gain := PrestigeGain(env, save);
      ghost var collected := save;
      save := save.(starseeds := SatAdd(save.starseeds, gain));
      if save.activeContract != NoContract {
        save := save.(contractStarseeds := SatAdd(save.contractStarseeds, gain));
        save := save.(contractRebirths := SatAdd(save.contractRebirths, 1));
      }
      save := save.(rebirths := save.rebirths + 1);
      var wallet := StartWallet();
      save := save.(coins := wallet, books := Books(wallet, 0, 0));
      save := save.(plots := FreshPlots(env), purchasedPlots := 0, zones := {});
      save := save.(multipliers := map[], seedUpgrades := map[], pouches := [], scarecrowClock := 0, runEarnings := 0);
      save := save.(eventId := "", eventStartedAt := 0, eventEndsAt := 0, updatedAt := now);
      assert save == Reborn(env, collected, gain, wallet, now);
      var _ := CheckContractCompletion();
      err := None;
    }

    method ResetGameplay(now: int)
      modifies this
      ensures save == FX.ResetGameplay(env, old(save), now)
    {
      save := save.(coins := env.content.start.coins, books := Books(env.content.start.coins, 0, 0));
      save := save.(plots := FreshPlots(env), purchasedPlots := 0, zones := {}, runEarnings := 0);
      save := save.(multipliers := map[], seedUpgrades := map[], pouches := [], scarecrowClock := 0);
      save := save.(giftPending := false, giftArrivedAt := 0, eventId := "", eventStartedAt := 0, eventEndsAt := 0);
      save := save.(starseeds := 0, upgrades := map[], lastCrop := "");
      save := save.(contractRebirths := 0, contractEarnings := 0, contractStarseeds := 0, updatedAt := now);
    }

    method StartContract(id: ContractId, now: int) returns (err: Option<Refusal>)
      modifies this
      ensures Answers(DoStartContract(env, old(save), id, now), err, old(save), save)
    {
      hide FX.ResetGameplay, ContractsAvailable;
      if save.activeContract != NoContract {
        return Some(ContractActive);
      }
      var next := NextContract(save);
      if next == NoContract || next != id {
        return Some(ContractSequence);
      }
      if !ContractsAvailable(env, save) {
        return Some(ContractsLocked);
      }
      ResetGameplay(now);
      save := save.(contractsUnlocked := true);
      save := save.(activeContract := id);
      err := None;
    }

    method AbandonContract(now: int) returns (err: Option<Refusal>)
      modifies this
      ensures Answers(DoAbandonContract(env, old(save), now), err, old(save), save)
    {
      hide FX.ResetGameplay;
      if save.activeContract == NoContract {
        return Some(NoActiveContract);
      }
      ResetGameplay(now);
      save := save.(activeContract := NoContract);
      err := None;
    }

    method SetNameStyle(style: NameStyle) returns (err: Option<Refusal>)
      modifies this
      ensures Answers(DoSetNameStyle(old(save), style), err, old(save), save)
    {
      if style == UnknownStyle {
        return Some(UnknownNameStyle);
      }
      if !StyleUnlocked(save.contractsCompleted, style) {
        return Some(NameStyleLocked);
      }
      save := save.(nameStyle := style);
      err := None;
    }

    method SetFarmName(name: string) returns (err: Option<Refusal>)
      modifies this
      ensures Answers(DoSetFarmName(env, old(save), name), err, old(save), save)
    {
      var trimmed := Id.TrimRight(env.unicode, Id.TrimLeft(env.unicode, name));
      if trimmed == "" {
        return Some(NameEmpty);
      }
      if |trimmed| > 24 {
        return Some(NameTooLong);
      }
      save := save.(farmName := trimmed);
      err := None;
    }

    // ---- One closure on the actor ----

    method Apply(now: int, a: Action) returns (err: Option<Refusal>)
      modifies this
      ensures Answers(Do(env, old(save), now, a), err, old(save), save)
    {
      hide DoPlant, DoHarvest, DoReplantAll, DoBuyPlot, DoBuyZone, DoBuyMultiplier, DoBuySeedUpgrade,
        DoUpgradePlotAuto, DoSetAutoSowCrop, DoBuyUpgrade, DoRedeemGift, DoCollectScarecrow, CollectFrom, DoBuyScarecrow,
        DoShooCritter, DoRebirth, DoStartContract, DoAbandonContract, DoSetNameStyle, DoSetFarmName;
      err := None;
      match a {
        case Plant(i, crop) => err := Plant(i, crop, now);
        case Harvest(i) => err := Harvest(i, now);
        case ReplantAll => var _, _, _, _ := ReplantAll(now);
        case BuyPlot => err := BuyPlot();
        case BuyZone(id) => err := BuyZone(id);
        case BuyMultiplier(id) => err := BuyMultiplier(id);
        case BuySeedUpgrade(id) => err := BuySeedUpgrade(id);
        case UpgradePlotAuto(i, kind) => err := UpgradePlotAuto(i, kind);
        case SetAutoSowCrop(i, crop) => err := SetAutoSowCrop(i, crop);
        case BuyUpgrade(id) => err := BuyUpgrade(id);
        case RedeemGift => err := RedeemGift();
        case CollectScarecrow(i) => var coins; coins, err := CollectScarecrow(i);
        case CollectScarecrows => CollectScarecrows();
        case BuyScarecrow => err := BuyScarecrow();
        case ShooCritter(i) => err := ShooCritter(i);
        case Rebirth => var gain; gain, err := Rebirth(now);
        case StartContract(id) => err := StartContract(id, now);
        case AbandonContract => err := AbandonContract(now);
        case SetNameStyle(style) => err := SetNameStyle(style);
        case SetFarmName(name) => err := SetFarmName(name);
        case SetFlavor(on) => save := save.(flavorEnabled := on);
        case SetCritters(on) => save := save.(crittersEnabled := on);
      }
    }

    // What a session's intent runs: time first, then the intent, then achievements if
    // it was accepted; and the contract this call completed, if any.
    method Intent(now: int, a: Action) returns (accepted: bool, completed: ContractId)
      modifies this
      ensures (save, accepted) == Act(env, FA.Advance(env, old(save), now).0, now, a)
      ensures completed == if save.contractsCompleted > old(save).contractsCompleted then old(save).activeContract else NoContract
    {
      hide FA.Advance, Do, FA.CheckAchievements;
      var active, done := save.activeContract, save.contractsCompleted;
      var ev := Advance(now);
      var err := Apply(now, a);
      accepted := err == None;
      if accepted {
        var newly := CheckAchievements(now);
      }
      completed := if save.contractsCompleted > done then active else NoContract;
    }
  }

  lemma CollectingLeavesPouches(s: Save, i: nat)
    requires i < |s.pouches|
    ensures var o := DoCollectScarecrow(s, i); o.Ok? ==> |o.value.pouches| == |s.pouches|
  {
  }

  lemma ShooIgnoresThePlot(e: Env, s: Save, i: nat)
    requires i < |s.plots|
    ensures var t := s.(plots := s.plots[i := s.plots[i].(critter := "")]);
      var lo, hi := e.content.critters.shooMin, e.content.critters.shooMax;
      && FS.RollRange(e, t, lo, hi).0 == FS.RollRange(e, s, lo, hi).0
      && FS.RollRange(e, t, lo, hi).1 == FS.RollRange(e, s, lo, hi).1.(plots := t.plots)
      && ProgressionRebirths(FS.RollRange(e, t, lo, hi).1) == ProgressionRebirths(s)
  {
  }

  lemma SownOrShort(s: Save, c: Candidate, now: int)
    ensures s.coins < c.cost ==> Sow(s, c, now) == s
  {
  }

  lemma NothingLeft(coins: int)
    ensures Planting(R.Greedy(coins, [])) == 0 && R.CostOf([], R.Greedy(coins, [])) == 0
  {
  }

  lemma GreedyStep(coins: int, cands: seq<Candidate>)
    requires cands != []
    ensures var left := if coins < cands[0].cost then coins else coins - cands[0].cost;
      var one := if coins < cands[0].cost then 0 else 1;
      && R.CostOf(cands, R.Greedy(coins, cands)) == one * cands[0].cost + R.CostOf(cands[1..], R.Greedy(left, cands[1..]))
      && Planting(R.Greedy(coins, cands)) == one + Planting(R.Greedy(left, cands[1..]))
  {
    var left := if coins < cands[0].cost then coins else coins - cands[0].cost;
    assert R.Greedy(coins, cands)[1..] == R.Greedy(left, cands[1..]);
  }

  lemma OrderFits(e: Env, s: Save, order: seq<Candidate>, now: int)
    requires order == DearestFirst(Candidates(e, s, |s.plots|, now))
    ensures forall k :: 0 <= k < |order| ==> order[k].plot < |s.plots|
  {
    hide CandidateAt;
    var cands := Candidates(e, s, |s.plots|, now);
    R.CandidatesAre(e, s, |s.plots|, now);
    R.DearestFirstSorts(cands);
    R.SameMembers(order, cands);
    assert forall k :: 0 <= k < |order| ==> order[k] in order;
  }

  lemma IntervalPositive(e: Env, s: Save)
    ensures EventInterval(e, s).0 >= 1
  {
  }

  // How many plots a choice plants.
  function Planting(pick: seq<bool>): nat {
    if pick == [] then 0 else (if pick[0] then 1 else 0) + Planting(pick[1..])
  }

  // Empty plots whose remembered crop is unknown, locked or out of season.
  function LockedOut(e: Env, s: Save, n: nat, now: int): nat
    requires n <= |s.plots|
  {
    if n == 0 then 0
    else
      LockedOut(e, s, n - 1, now)
      + (if s.plots[n - 1].crop == "" && Remembered(s, s.plots[n - 1]) != "" && CandidateAt(e, s, n - 1, now).None? then 1 else 0)
  }

  lemma SellIgnoresDraws(e: Env, s: Save, t: Save, crop: C.Crop, base: nat, now: int)
    requires t == s.(draws := t.draws)
    ensures SellMultiplied(e, t, base, crop.id, now) == SellMultiplied(e, s, base, crop.id, now)
    ensures SalvageBase(t, crop) == SalvageBase(s, crop)
  {
  }

  lemma PayLeavesPlots(s: Save, cost: int)
    ensures FS.Pay(s, cost).plots == s.plots
  {
  }

  lemma BatchMovesOn(e: Env, s: Save, i: nat, crop: C.Crop, grow: C.pos, matureAt: int, to: int, ev: Report)
    requires i < |s.plots| && matureAt <= to
    ensures var t := FA.Batch(e, s, i, crop, grow, matureAt, to, ev).0;
      t.plots[i].plantedAt + grow > to
  {
    hide SeedCost, ExpectedPayout, FS.Credit, SatMul;
    DivMod(to - matureAt, grow);
  }
}
