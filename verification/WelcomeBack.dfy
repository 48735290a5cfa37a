// What the welcome-back report says of the wallet, against what happened to it; and
// where a batch's expected payout stands between the worst luck and the best.
module WelcomeBack {
  import opened Common
  import opened Money
  import opened FarmState
  import opened FarmAdvance
  import opened FastPath
  import opened Passage
  import C = Content

  // ---- The report adds up ----

  // Everything reported so far explains the wallet, from what it held before.
  predicate Honest(before: nat, s: Save, ev: Report) {
    s.coins == before + ev.autoCoins + ev.discoveryCoins && ev.discoveryCoins >= 0
  }

  predicate Unsaturated(s: Save) {
    s.books.start + s.books.earned <= MAX
  }

  predicate StaysHonest(before: nat, s: Save, ev: Report, t: Save, ev': Report) {
    && t.books.start == s.books.start && t.books.earned >= s.books.earned
    && (Honest(before, s, ev) && Unsaturated(t) ==> Honest(before, t, ev'))
  }

  lemma HonestOn(before: nat, s: Save, ev: Report, t: Save, ev': Report, r: Save, ev'': Report)
    requires StaysHonest(before, s, ev, t, ev') && StaysHonest(before, t, ev', r, ev'')
    ensures StaysHonest(before, s, ev, r, ev'')
  {
    hide Honest;
  }

  function Plain(e: Env, s: Save, crop: C.Crop, failed: bool, now: int): nat {
    SellMultiplied(e, s, if failed then SalvageBase(s, crop) else crop.sellValue, crop.id, now)
  }

  // No golden harvest of this content overflows: that product is not saturated.
  ghost predicate GoldenFits(e: Env, s: Save) {
    e.content.golden.chancePct <= 0 ||
    forall crop, failed, now :: crop in e.content.crops ==> Plain(e, s, crop, failed, now) * e.content.golden.multiplier <= MAX
  }

  // Nothing a price is made of.
  predicate SameTrade(s: Save, t: Save) {
    && t.upgrades == s.upgrades && t.multipliers == s.multipliers && t.seedUpgrades == s.seedUpgrades
    && t.eventId == s.eventId && t.activeContract == s.activeContract
  }

  lemma PlainStands(e: Env, s: Save, t: Save, crop: C.Crop, failed: bool, now: int)
    requires SameTrade(s, t)
    ensures Plain(e, t, crop, failed, now) == Plain(e, s, crop, failed, now)
  {
  }

  lemma GoldenStillFits(e: Env, s: Save, t: Save)
    requires SameTrade(s, t) && GoldenFits(e, s)
    ensures GoldenFits(e, t)
  {
    hide Plain;
    if e.content.golden.chancePct > 0 {
      forall crop, failed, now | crop in e.content.crops
        ensures Plain(e, t, crop, failed, now) * e.content.golden.multiplier <= MAX
      {
        PlainStands(e, s, t, crop, failed, now);
      }
    }
  }

  lemma TradeKept(s: Save, t: Save)
    requires Passed(s, t) && Aside(s, t)
    ensures SameTrade(s, t)
  {
    hide Balanced;
  }

  // No payout of fitting content is negative.
  lemma PayoutPositive(e: Env, s: Save, crop: C.Crop, now: int)
    requires GoldenFits(e, s) && crop in e.content.crops
    ensures var y := HarvestPayout(e, s, crop, now).0; y.payout >= 0 && y.discovery >= 0
  {
    hide SellMultiplied, SalvageBase, I64;
    var (failed, s1) := RollFailure(e, s, crop);
    var plain := Plain(e, s, crop, failed, now);
    var (golden, s2) := RollGolden(e, s1);
    if golden {
      var product := plain * e.content.golden.multiplier;
      MulMonotone(0, plain, e.content.golden.multiplier);
      FitsI64(product);
    }
  }

  lemma CreditsHonestly(s: Save, amount: int)
    requires Balanced(s) && Quiet(s) && amount >= 0
    ensures var t := Credit(s, amount);
      && t.books.start == s.books.start && t.books.earned == s.books.earned + amount
      && (Unsaturated(t) ==> t.coins == s.coins + amount && Unsaturated(s))
  {
  }

  lemma ReapIsHonest(e: Env, before: nat, s: Save, crop: C.Crop, matureAt: int, ev: Report)
    requires Balanced(s) && Quiet(s) && GoldenFits(e, s) && crop in e.content.crops
    ensures var (t, ev') := Reap(e, s, crop, matureAt, ev); StaysHonest(before, s, ev, t, ev')
  {
    hide HarvestPayout, Credit, GoldenFits, Quiet, Passed, Bump;
    PayoutPositive(e, s, crop, matureAt);
    var (y, s1) := HarvestPayout(e, s, crop, matureAt);
    assert Passed(s, s1) && Quiet(s1) by { DrawsPass(s, s1); }
    CreditsHonestly(s1, y.payout);
    CreditPasses(s1, y.payout);
    BalanceCarried(s1, Credit(s1, y.payout));
    CreditsHonestly(Credit(s1, y.payout), y.discovery);
    var (t, ev') := Reap(e, s, crop, matureAt, ev);
    if Honest(before, s, ev) && Unsaturated(t) {
      assert 0 <= Credit(s1, y.payout).coins <= MAX;
    }
  }

  lemma ReplantIsHonest(e: Env, before: nat, s: Save, i: nat, crop: C.Crop, matureAt: int, to: int, ev: Report)
    requires i < |s.plots|
    ensures var (t, ev', next) := Replant(e, s, i, crop, matureAt, to, ev);
      && StaysHonest(before, s, ev, t, ev')
      && (crop in e.content.crops && next.Some? ==> next.value in e.content.crops)
  {
    hide SeedCost, Unlocked, SeasonalPlantable, Resown;
  }

  lemma HarvestOnceIsHonest(e: Env, before: nat, s: Save, i: nat, crop: C.Crop, matureAt: int, to: int, ev: Report)
    requires i < |s.plots| && Balanced(s) && Quiet(s) && GoldenFits(e, s) && crop in e.content.crops
    ensures var (t, ev', next) := HarvestOnce(e, s, i, crop, matureAt, to, ev);
      && StaysHonest(before, s, ev, t, ev') && (next.Some? ==> next.value in e.content.crops)
  {
    hide Reap, Replant, StaysHonest, GoldenFits;
    var (t, ev') := Reap(e, s, crop, matureAt, ev);
    ReapIsHonest(e, before, s, crop, matureAt, ev);
    ReplantIsHonest(e, before, t, i, crop, matureAt, to, ev');
    var (r, ev'', next) := Replant(e, t, i, crop, matureAt, to, ev');
    HonestOn(before, s, ev, t, ev', r, ev'');
  }

  lemma BatchIsHonest(e: Env, before: nat, s: Save, i: nat, crop: C.Crop, grow: C.pos, matureAt: int, to: int, ev: Report)
    requires i < |s.plots| && Balanced(s) && Quiet(s) && matureAt <= to && CanBatch(e, s, i, crop, matureAt, to)
    ensures var (t, ev') := Batch(e, s, i, crop, grow, matureAt, to, ev); StaysHonest(before, s, ev, t, ev')
  {
    hide ExpectedPayout, SeedCost, Credit, Quiet, SeasonalPlantable, SatMul;
    var n := (to - matureAt) / grow + 1;
    var p, c := ExpectedPayout(e, s, crop, matureAt), SeedCost(e, s, crop);
    SatMulCaps(p, n);
    SatMulCaps(c, n);
    MulMonotone(c, p, n);
    MulMonotone(0, c, n);
    var gross, seeds := SatMul(p, n), SatMul(c, n);
    assert 0 <= seeds <= gross;
    CreditsHonestly(s, gross);
    CreditPasses(s, gross);
    BalanceCarried(s, Credit(s, gross));
  }

  lemma {:induction false} CyclesAreHonest(
    e: Env, before: nat, s: Save, i: nat, crop: C.Crop, grow: C.pos, matureAt: int, cycles: nat, to: int, ev: Report)
    requires i < |s.plots| && Balanced(s) && Quiet(s) && GoldenFits(e, s) && crop in e.content.crops
    ensures var (t, ev') := Cycles(e, s, i, crop, grow, matureAt, cycles, to, ev);
      StaysHonest(before, s, ev, t, ev') && SameTrade(s, t)
    decreases Max(to - matureAt + 1, 0)
  {
    hide Honest, Balanced, Quiet, GoldenFits, HarvestOnce, Batch, CanBatch, GrowSeconds, Passed, SameTrade;
    CyclesPass(e, s, i, crop, grow, matureAt, cycles, to, ev);
    TradeKept(s, Cycles(e, s, i, crop, grow, matureAt, cycles, to, ev).0);
    if matureAt > to {
    } else if cycles >= AUTO_CYCLE_CAP {
      if CanBatch(e, s, i, crop, matureAt, to) {
        BatchIsHonest(e, before, s, i, crop, grow, matureAt, to, ev);
      }
    } else {
      var (t, ev', next) := HarvestOnce(e, s, i, crop, matureAt, to, ev);
      HarvestOnceIsHonest(e, before, s, i, crop, matureAt, to, ev);
      HarvestOncePasses(e, s, i, crop, matureAt, to, ev);
      BalanceCarried(s, t);
      TradeKept(s, t);
      GoldenStillFits(e, s, t);
      if next.Some? {
        var g := if next.value.id != crop.id then GrowSeconds(e, t, next.value) else grow;
        CyclesAreHonest(e, before, t, i, next.value, g, matureAt + g, cycles + 1, to, ev');
      }
    }
  }

  lemma SettlePlotIsHonest(e: Env, before: nat, s: Save, i: nat, from: int, to: int, online: bool, ev: Report)
    requires i < |s.plots| && Balanced(s) && !Complete(s) && GoldenFits(e, s)
    ensures var (t, ev') := SettlePlot(e, s, i, from, to, online, ev);
      StaysHonest(before, s, ev, t, ev') && SameTrade(s, t)
  {
    hide Balanced, Quiet, GoldenFits, Cycles, MaybeCritter, GrowSeconds, Complete, BlocksAutomation;
    OpenContractIsQuiet(s);
    VisitsAreFree(e, before, s, i, ev);
    var plot := s.plots[i];
    var found := C.CropIn(e.content.crops, plot.crop);
    if plot.crop != "" && found.Some? && plot.autoHarvest && !BlocksAutomation(s) {
      var grow := GrowSeconds(e, s, found.value);
      CyclesAreHonest(e, before, s, i, found.value, grow, plot.plantedAt + grow, 0, to, ev);
    }
  }

  lemma VisitsAreFree(e: Env, before: nat, s: Save, i: nat, ev: Report)
    requires i < |s.plots|
    ensures var (t, ev') := MaybeCritter(e, s, i, ev); StaysHonest(before, s, ev, t, ev') && SameTrade(s, t)
  {
    hide CritterCount;
  }

  lemma {:induction false} SettlePlotsAreHonest(
    e: Env, before: nat, s: Save, i: nat, from: int, to: int, online: bool, ev: Report)
    requires Balanced(s) && !Complete(s) && GoldenFits(e, s)
    ensures var (t, ev') := SettlePlots(e, s, i, from, to, online, ev); StaysHonest(before, s, ev, t, ev')
    decreases |s.plots| - i
  {
    hide Honest, Balanced, GoldenFits, SettlePlot, Complete, SameTrade;
    if i < |s.plots| {
      var (t, ev') := SettlePlot(e, s, i, from, to, online, ev);
      SettlePlotIsHonest(e, before, s, i, from, to, online, ev);
      SettlePlotPasses(e, s, i, from, to, online, ev);
      GoldenStillFits(e, s, t);
      SettlePlotsAreHonest(e, before, t, i + 1, from, to, online, ev');
    }
  }

  lemma {:induction false} FillingReportsPouchesOnly(e: Env, s: Save, i: nat, drops: nat, ev: Report)
    ensures var ev' := FillPouches(e, s, i, drops, ev).1;
      ev' == ev.(scarecrowCoins := ev'.scarecrowCoins)
    decreases |s.pouches| - i
  {
    hide DropsFor;
    if i < |s.pouches| {
      var (gained, t) := DropsFor(e, s, drops);
      FillingReportsPouchesOnly(e, t.(pouches := t.pouches[i := SatAdd(t.pouches[i], gained)]), i + 1, drops,
                                ev.(scarecrowCoins := SatAdd(ev.scarecrowCoins, gained)));
    }
  }

  lemma IdleScarecrows(e: Env, s: Save)
    ensures !ScarecrowsIdle(e, s) ==> ClockTarget(e) >= 1
  {
  }

  lemma ScarecrowsReportPouchesOnly(e: Env, s: Save, elapsed: int, online: bool, ev: Report)
    requires elapsed >= 0
    ensures var ev' := AdvanceScarecrows(e, s, elapsed, online, ev).1;
      ev'.autoCoins == ev.autoCoins && ev'.discoveryCoins == ev.discoveryCoins
  {
    hide FillPouches, ScarecrowsIdle, ClockTarget, ClockRate, SatMul;
    IdleScarecrows(e, s);
    var clock := SatAdd(Max(s.scarecrowClock, 0), SatMul(elapsed, ClockRate(e, online)));
    if !ScarecrowsIdle(e, s) && ClockTarget(e) > 0 && clock / ClockTarget(e) > 0 {
      FillingReportsPouchesOnly(e, s.(scarecrowClock := clock % ClockTarget(e)), 0, clock / ClockTarget(e), ev);
    }
  }

  lemma ArrivalsReportNoCoins(e: Env, s: Save, to: int)
    requires to > s.updatedAt
    ensures var ev := Arrivals(e, s, to).1; ev.autoCoins == 0 && ev.discoveryCoins == 0
  {
    hide Roll, RollRange, GiftChance, EventInterval, EventDurations, BlocksEvents, BlocksGifts, ClearEvent;
  }

  lemma PreludeReportsNoCoins(e: Env, s: Save, to: int)
    requires to > s.updatedAt
    ensures var ev := Prelude(e, s, to).1; ev.autoCoins == 0 && ev.discoveryCoins == 0
  {
    hide Arrivals, AdvanceScarecrows;
    ArrivalsReportNoCoins(e, s, to);
    var (t, ev) := Arrivals(e, s, to);
    var elapsed := to - s.updatedAt;
    ScarecrowsReportPouchesOnly(e, t, elapsed, elapsed <= ONLINE_THRESHOLD, ev);
  }

  // The golden product fits whichever event is running.
  ghost predicate GoldenAlwaysFits(e: Env, s: Save) {
    forall id :: GoldenFits(e, s.(eventId := id))
  }

  // Short of saturation, the coins the welcome-back report names, automatic net of
  // seeds and discovered, are exactly what the wallet gained.
  lemma TheReportAddsUp(e: Env, s: Save, to: int)
    requires Balanced(s) && !Complete(s) && GoldenAlwaysFits(e, s)
    ensures var (r, ev) := Advance(e, s, to);
      Unsaturated(r) ==> r.coins - s.coins == ev.autoCoins + ev.discoveryCoins
  {
    hide Balanced, Complete, Prelude, SettlePlots, CheckAchievements, GoldenFits;
    if to > s.updatedAt {
      var online := to - s.updatedAt <= ONLINE_THRESHOLD;
      var (s1, ev1) := Prelude(e, s, to);
      PreludeIsAmbient(e, s, to);
      PreludeReportsNoCoins(e, s, to);
      AmbientPasses(s, s1);
      GoldenStillFits(e, s.(eventId := s1.eventId), s1);
      assert 0 <= s.coins by { assert Balanced(s); WalletPositive(s); }
      SettlePlotsAreHonest(e, s.coins, s1, 0, s.updatedAt, to, online, ev1);
    }
  }

  lemma WalletPositive(s: Save)
    requires Balanced(s)
    ensures s.coins >= 0
  {
  }

  // A golden harvest pays what it should exactly when its product fits.
  lemma TheGoldenPayoutIsExactWhen(e: Env, payout: nat)
    ensures var product := payout * e.content.golden.multiplier;
      GoldenPayout(e, payout) == product / 10 <==> product <= MAX
  {
    hide I64;
    var product := payout * e.content.golden.multiplier;
    MulMonotone(0, payout, e.content.golden.multiplier);
    if product <= MAX {
      FitsI64(product);
    } else {
      WrapsDown(product);
      TenthsFall(I64(product), product);
    }
  }

  lemma TenthsFall(y: int, x: int)
    requires x >= 20 && y <= x - 20
    ensures Quo(y, 10) < x / 10
  {
  }

  // ---- A batch is neither the worst luck nor the best ----

  lemma SellMonotone(e: Env, s: Save, a: nat, b: nat, id: string, now: int)
    requires a <= b <= MAX
    ensures SellMultiplied(e, s, a, id, now) <= SellMultiplied(e, s, b, id, now)
  {
    hide SellBonusPct;
    var bonus := SellBonusPct(e, s, id, now);
    MulMonotone(a, b, 100 + bonus);
    if b > MAX / (100 + bonus) {
      DivisionBound(a, 100 + bonus, MAX);
      MulMonotone(0, a, 100 + bonus);
    }
  }

  lemma ExpectedBaseBetween(s: Save, crop: C.Crop)
    ensures SalvageBase(s, crop) <= ExpectedBase(s, crop) <= crop.sellValue
  {
    hide SalvageBase;
    var lo, hi, f := SalvageBase(s, crop), crop.sellValue, crop.failChancePct;
    SalvageIsLess(s, crop);
    MulMonotone(lo, hi, f);
    MulMonotone(lo, hi, 100 - f);
    Distribute(f, 100 - f, lo);
    Distribute(f, 100 - f, hi);
    assert f * lo == lo * f && f * hi == hi * f && (100 - f) * lo == lo * (100 - f) && (100 - f) * hi == hi * (100 - f);
  }

  lemma SalvageIsLess(s: Save, crop: C.Crop)
    ensures SalvageBase(s, crop) <= crop.sellValue
  {
    var n := SalvageNumerator(Level(s.seedUpgrades, crop.id));
    MulMonotone(n, 8, crop.sellValue);
  }

  // What a batch pays per harvest lies between every harvest failing and none.
  lemma TheBatchPaysBetweenWorstAndBest(e: Env, s: Save, crop: C.Crop, now: int)
    requires crop.sellValue <= MAX && crop.archetype.Risky?
    ensures Plain(e, s, crop, true, now) <= ExpectedPayout(e, s, crop, now) <= Plain(e, s, crop, false, now)
  {
    hide SellMultiplied, ExpectedBase, SalvageBase;
    ExpectedBaseBetween(s, crop);
    SellMonotone(e, s, SalvageBase(s, crop), ExpectedBase(s, crop), crop.id, now);
    SellMonotone(e, s, ExpectedBase(s, crop), crop.sellValue, crop.id, now);
  }
}
