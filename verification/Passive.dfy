// When time alone harvests and earns, and when it leaves the money alone: above all
// inside a contract, where the source means no passive source to credit coins.
module Passive {
  import opened Common
  import opened Money
  import opened FarmState
  import opened FarmAdvance
  import opened FarmActions
  import opened FastPath
  import opened Passage
  import opened WelcomeBack
  import opened Campaign
  import C = Content

  // ---- What an automatic plot has to be ----

  // A plot that automation works and whose crop is due.
  predicate Ripe(e: Env, s: Save, plot: Plot, to: int) {
    var crop := C.CropIn(e.content.crops, plot.crop);
    && plot.crop != "" && plot.autoHarvest && !BlocksAutomation(s) && crop.Some?
    && plot.plantedAt + GrowSeconds(e, s, crop.value) <= to
  }

  predicate RipeFrom(e: Env, s: Save, i: nat, to: int) {
    exists j :: i <= j < |s.plots| && Ripe(e, s, s.plots[j], to)
  }

  predicate SameMoney(s: Save, r: Save) {
    && r.coins == s.coins && r.books == s.books && r.runEarnings == s.runEarnings
    && r.lifetimeEarnings == s.lifetimeEarnings && r.contractEarnings == s.contractEarnings
    && r.lifetimeHarvests == s.lifetimeHarvests
  }

  // No credit is taken back.
  predicate Earns(s: Save, t: Save) {
    && s.books.earned <= t.books.earned
    && (0 <= s.contractEarnings <= MAX ==> s.contractEarnings <= t.contractEarnings <= MAX)
  }

  // Some credit was made; short of saturation the active contract counts it.
  predicate EarnsMore(s: Save, t: Save) {
    && s.books.earned < t.books.earned
    && (s.activeContract != NoContract && 0 <= s.contractEarnings < MAX ==> s.contractEarnings < t.contractEarnings <= MAX)
  }

  // Every crop pays something however its harvest goes: at the weakest strain a failed
  // harvest salvages an eighth.
  predicate PaysAlways(c: C.Content) {
    forall crop :: crop in c.crops ==> crop.sellValue >= if crop.archetype.Risky? then 8 else 1
  }

  lemma EarnsOn(s: Save, t: Save, r: Save)
    requires Earns(s, t) && Earns(t, r)
    ensures Earns(s, r)
  {
  }

  lemma MoreThenSome(s: Save, t: Save, r: Save)
    requires EarnsMore(s, t) && Earns(t, r)
    ensures EarnsMore(s, r)
  {
  }

  lemma EarnsNothing(s: Save, r: Save)
    requires SameMoney(s, r)
    ensures Earns(s, r)
  {
  }

  // ---- One harvest ----

  lemma CreditEarns(s: Save, amount: int)
    requires Quiet(s)
    ensures var t := Credit(s, amount); Earns(s, t) && (amount > 0 ==> EarnsMore(s, t)) && t.activeContract == s.activeContract
  {
  }

  lemma SalvageSomething(s: Save, crop: C.Crop)
    requires crop.sellValue >= 8
    ensures SalvageBase(s, crop) >= 1
  {
    var n := SalvageNumerator(Level(s.seedUpgrades, crop.id));
    MulMonotone(1, n, crop.sellValue);
  }

  lemma SellsForNoLess(e: Env, s: Save, base: nat, id: string, now: int)
    requires 1 <= base
    ensures SellMultiplied(e, s, base, id, now) >= 1
  {
    hide SellBonusPct;
    var bonus := SellBonusPct(e, s, id, now);
    MulMonotone(1, base, 100 + bonus);
  }

  lemma PayoutIsPositive(e: Env, s: Save, crop: C.Crop, now: int)
    requires GoldenFits(e, s) && PaysAlways(e.content) && crop in e.content.crops
    ensures HarvestPayout(e, s, crop, now).0.payout >= 1
  {
    hide SellMultiplied, SalvageBase, I64;
    var (failed, s1) := RollFailure(e, s, crop);
    var (golden, s2) := RollGolden(e, s1);
    if failed {
      SalvageSomething(s, crop);
    }
    SellsForNoLess(e, s, if failed then SalvageBase(s, crop) else crop.sellValue, crop.id, now);
    var plain := Plain(e, s, crop, failed, now);
    if golden {
      var product := plain * e.content.golden.multiplier;
      MulMonotone(1, plain, e.content.golden.multiplier);
      FitsI64(product);
    }
  }

  lemma ReapEarns(e: Env, s: Save, crop: C.Crop, matureAt: int, ev: Report)
    requires Quiet(s)
    ensures var (t, ev') := Reap(e, s, crop, matureAt, ev);
      && Earns(s, t) && ev.autoHarvested.Keys <= ev'.autoHarvested.Keys && crop.id in ev'.autoHarvested
      && (GoldenFits(e, s) && PaysAlways(e.content) && crop in e.content.crops ==> EarnsMore(s, t))
  {
    hide HarvestPayout, Credit, Quiet, GoldenFits, PaysAlways, Earns, EarnsMore, Passed;
    var (y, s1) := HarvestPayout(e, s, crop, matureAt);
    DrawsPass(s, s1);
    CreditEarns(s1, y.payout);
    CreditPasses(s1, y.payout);
    CreditEarns(Credit(s1, y.payout), y.discovery);
    var s2 := Credit(Credit(s1, y.payout), y.discovery);
    var t := Reap(e, s, crop, matureAt, ev).0;
    EarnsOn(s1, Credit(s1, y.payout), s2);
    SameEarnings(s, s1, s2, t);
    if GoldenFits(e, s) && PaysAlways(e.content) && crop in e.content.crops {
      PayoutIsPositive(e, s, crop, matureAt);
      MoreThenSome(s1, Credit(s1, y.payout), s2);
    }
  }

  // Draws before and a harvest count after change no earnings.
  lemma SameEarnings(s: Save, s1: Save, s2: Save, t: Save)
    requires s1 == s.(draws := s1.draws) && t == s2.(lifetimeHarvests := t.lifetimeHarvests)
    ensures (Earns(s1, s2) ==> Earns(s, t)) && (EarnsMore(s1, s2) ==> EarnsMore(s, t))
  {
  }

  lemma ReplantEarnsNothing(e: Env, s: Save, i: nat, crop: C.Crop, matureAt: int, to: int, ev: Report)
    requires i < |s.plots|
    ensures var (t, ev', next) := Replant(e, s, i, crop, matureAt, to, ev);
      Earns(s, t) && ev'.autoHarvested == ev.autoHarvested && ElsewhereSame(s, t, i)
  {
    hide SeedCost, Unlocked, SeasonalPlantable, Resown, SowCrop, Pay, Earns, ElsewhereSame;
    var plot := s.plots[i];
    var sow := SowCrop(e, plot, crop);
    TillingEarnsNothing(s, s, i, plot.(crop := "", plantedAt := 0));
    PayingEarnsNothing(s, SeedCost(e, s, sow));
    TillingEarnsNothing(s, Pay(s, SeedCost(e, s, sow)), i, Resown(plot, sow, crop, matureAt));
  }

  lemma PayingEarnsNothing(s: Save, cost: int)
    ensures var t := Pay(s, cost); Earns(s, t) && t.plots == s.plots
  {
  }

  lemma TillingEarnsNothing(s: Save, t: Save, i: nat, plot: Plot)
    requires i < |s.plots| && t.plots == s.plots
    ensures var r := t.(plots := s.plots[i := plot]); (Earns(s, t) ==> Earns(s, r)) && ElsewhereSame(s, r, i) && Earns(s, s)
  {
  }

  // Only plot i may differ.
  predicate ElsewhereSame(s: Save, t: Save, i: nat) {
    |t.plots| == |s.plots| && forall j :: 0 <= j < |s.plots| && j != i ==> t.plots[j] == s.plots[j]
  }

  lemma HarvestOnceEarns(e: Env, s: Save, i: nat, crop: C.Crop, matureAt: int, to: int, ev: Report)
    requires i < |s.plots| && Quiet(s)
    ensures var (t, ev', next) := HarvestOnce(e, s, i, crop, matureAt, to, ev);
      && Earns(s, t) && ev.autoHarvested.Keys <= ev'.autoHarvested.Keys && crop.id in ev'.autoHarvested
      && ElsewhereSame(s, t, i)
      && (GoldenFits(e, s) && PaysAlways(e.content) && crop in e.content.crops ==> EarnsMore(s, t))
  {
    hide Reap, Replant, Quiet, GoldenFits, PaysAlways, Earns, EarnsMore;
    var (t, ev') := Reap(e, s, crop, matureAt, ev);
    ReapEarns(e, s, crop, matureAt, ev);
    ReplantEarnsNothing(e, t, i, crop, matureAt, to, ev');
    var r := Replant(e, t, i, crop, matureAt, to, ev').0;
    EarnsOn(s, t, r);
    if EarnsMore(s, t) {
      MoreThenSome(s, t, r);
    }
  }

  lemma BatchEarns(e: Env, s: Save, i: nat, crop: C.Crop, grow: C.pos, matureAt: int, to: int, ev: Report)
    requires i < |s.plots| && Quiet(s) && matureAt <= to
    ensures var (t, ev') := Batch(e, s, i, crop, grow, matureAt, to, ev);
      Earns(s, t) && ev.autoHarvested.Keys <= ev'.autoHarvested.Keys && ElsewhereSame(s, t, i)
  {
    hide SeedCost, ExpectedPayout, Credit, SatMul, Quiet;
    CreditEarns(s, SatMul(ExpectedPayout(e, s, crop, matureAt), (to - matureAt) / grow + 1));
  }

  lemma {:induction false} CyclesEarn(
    e: Env, s: Save, i: nat, crop: C.Crop, grow: C.pos, matureAt: int, cycles: nat, to: int, ev: Report)
    requires i < |s.plots| && Quiet(s) && Balanced(s)
    ensures var (t, ev') := Cycles(e, s, i, crop, grow, matureAt, cycles, to, ev);
      Earns(s, t) && ev.autoHarvested.Keys <= ev'.autoHarvested.Keys && ElsewhereSame(s, t, i)
    decreases Max(to - matureAt + 1, 0)
  {
    hide Quiet, Balanced, Batch, CanBatch, HarvestOnce, GrowSeconds, Passed, Earns;
    EarnsNothing(s, s);
    if matureAt > to {
    } else if cycles >= AUTO_CYCLE_CAP {
      BatchEarns(e, s, i, crop, grow, matureAt, to, ev);
    } else {
      var (t, ev', next) := HarvestOnce(e, s, i, crop, matureAt, to, ev);
      HarvestOnceEarns(e, s, i, crop, matureAt, to, ev);
      HarvestOncePasses(e, s, i, crop, matureAt, to, ev);
      BalanceCarried(s, t);
      if next.Some? {
        var g := if next.value.id != crop.id then GrowSeconds(e, t, next.value) else grow;
        CyclesEarn(e, t, i, next.value, g, matureAt + g, cycles + 1, to, ev');
        EarnsOn(s, t, Cycles(e, t, i, next.value, g, matureAt + g, cycles + 1, to, ev').0);
      }
    }
  }

  // A due loop harvests at least once.
  lemma DueCyclesEarn(e: Env, s: Save, i: nat, crop: C.Crop, grow: C.pos, matureAt: int, to: int, ev: Report)
    requires i < |s.plots| && Quiet(s) && Balanced(s) && matureAt <= to && crop in e.content.crops
    ensures var (t, ev') := Cycles(e, s, i, crop, grow, matureAt, 0, to, ev);
      && ev'.autoHarvested != map[]
      && (GoldenFits(e, s) && PaysAlways(e.content) ==> EarnsMore(s, t))
  {
    hide Quiet, Balanced, HarvestOnce, GrowSeconds, Passed, Earns, EarnsMore, GoldenFits, PaysAlways;
    var (t, ev', next) := HarvestOnce(e, s, i, crop, matureAt, to, ev);
    HarvestOnceEarns(e, s, i, crop, matureAt, to, ev);
    HarvestOncePasses(e, s, i, crop, matureAt, to, ev);
    BalanceCarried(s, t);
    if next.Some? {
      var g := if next.value.id != crop.id then GrowSeconds(e, t, next.value) else grow;
      CyclesEarn(e, t, i, next.value, g, matureAt + g, 1, to, ev');
      if EarnsMore(s, t) {
        MoreThenSome(s, t, Cycles(e, t, i, next.value, g, matureAt + g, 1, to, ev').0);
      }
    }
  }

  // ---- One plot ----

  lemma VisitChangesNoMoney(e: Env, s: Save, i: nat, ev: Report)
    requires i < |s.plots|
    ensures var (t, ev') := MaybeCritter(e, s, i, ev);
      SameMoney(s, t) && ev'.autoHarvested == ev.autoHarvested && ElsewhereSame(s, t, i)
  {
    hide CritterCount;
  }

  lemma UnripePlotWaits(e: Env, s: Save, i: nat, from: int, to: int, online: bool, ev: Report)
    requires i < |s.plots| && !Ripe(e, s, s.plots[i], to)
    ensures var (t, ev') := SettlePlot(e, s, i, from, to, online, ev);
      SameMoney(s, t) && ev'.autoHarvested == ev.autoHarvested && ElsewhereSame(s, t, i)
  {
    hide MaybeCritter, GrowSeconds, BlocksAutomation, HarvestOnce;
    VisitChangesNoMoney(e, s, i, ev);
  }

  lemma RipePlotEarns(e: Env, s: Save, i: nat, from: int, to: int, online: bool, ev: Report)
    requires i < |s.plots| && Ripe(e, s, s.plots[i], to) && Balanced(s) && !Complete(s)
    ensures var (t, ev') := SettlePlot(e, s, i, from, to, online, ev);
      && Earns(s, t) && ev.autoHarvested.Keys <= ev'.autoHarvested.Keys && ev'.autoHarvested != map[]
      && ElsewhereSame(s, t, i) && (GoldenFits(e, s) && PaysAlways(e.content) ==> EarnsMore(s, t))
  {
    hide Balanced, Complete, Quiet, Cycles, GrowSeconds, BlocksAutomation, Earns, EarnsMore, GoldenFits, PaysAlways, ElsewhereSame;
    OpenContractIsQuiet(s);
    var crop := C.CropIn(e.content.crops, s.plots[i].crop).value;
    var grow := GrowSeconds(e, s, crop);
    CyclesEarn(e, s, i, crop, grow, s.plots[i].plantedAt + grow, 0, to, ev);
    DueCyclesEarn(e, s, i, crop, grow, s.plots[i].plantedAt + grow, to, ev);
  }

  lemma RipenessStands(e: Env, s: Save, t: Save, plot: Plot, to: int)
    requires SameTrade(s, t)
    ensures Ripe(e, t, plot, to) <==> Ripe(e, s, plot, to)
  {
    var crop := C.CropIn(e.content.crops, plot.crop);
    if crop.Some? {
      assert ActiveEvent(e, t) == ActiveEvent(e, s);
    }
  }

  lemma LaterPlotsStand(e: Env, s: Save, t: Save, i: nat, to: int)
    requires SameTrade(s, t) && ElsewhereSame(s, t, i)
    ensures RipeFrom(e, t, i + 1, to) <==> RipeFrom(e, s, i + 1, to)
  {
    hide Ripe, SameTrade;
    forall j | i + 1 <= j < |s.plots| ensures Ripe(e, t, t.plots[j], to) <==> Ripe(e, s, s.plots[j], to) {
      RipenessStands(e, s, t, s.plots[j], to);
    }
  }

  // ---- Every plot ----

  // What settling from plot i on did: nothing to the money, or at least one harvest.
  predicate Worked(e: Env, s: Save, ev: Report, t: Save, ev': Report, ripe: bool, paying: bool) {
    if ripe then
      && ev.autoHarvested.Keys <= ev'.autoHarvested.Keys && ev'.autoHarvested != map[]
      && Earns(s, t) && (paying ==> EarnsMore(s, t))
    else SameMoney(s, t) && ev'.autoHarvested == ev.autoHarvested
  }

  lemma OnePlotWorks(e: Env, s: Save, i: nat, from: int, to: int, online: bool, ev: Report)
    requires i < |s.plots| && Balanced(s) && !Complete(s)
    ensures var (t, ev') := SettlePlot(e, s, i, from, to, online, ev);
      && Worked(e, s, ev, t, ev', Ripe(e, s, s.plots[i], to), GoldenFits(e, s) && PaysAlways(e.content))
      && ElsewhereSame(s, t, i)
  {
    hide Ripe, Balanced, Complete, SettlePlot, Earns, EarnsMore, GoldenFits, PaysAlways, ElsewhereSame, SameMoney;
    if Ripe(e, s, s.plots[i], to) {
      RipePlotEarns(e, s, i, from, to, online, ev);
    } else {
      UnripePlotWaits(e, s, i, from, to, online, ev);
    }
  }

  lemma WorkedOn(e: Env, s: Save, ev: Report, t: Save, ev': Report, r: Save, ev'': Report, now: bool, later: bool, paying: bool)
    requires Worked(e, s, ev, t, ev', now, paying) && Worked(e, t, ev', r, ev'', later, paying)
    requires t.activeContract == s.activeContract
    ensures Worked(e, s, ev, r, ev'', now || later, paying)
  {
  }

  lemma {:induction false} PlotsWork(e: Env, s: Save, i: nat, from: int, to: int, online: bool, ev: Report, paying: bool)
    requires Balanced(s) && !Complete(s) && (paying ==> GoldenFits(e, s) && PaysAlways(e.content))
    ensures var (t, ev') := SettlePlots(e, s, i, from, to, online, ev);
      Worked(e, s, ev, t, ev', RipeFrom(e, s, i, to), paying)
    decreases |s.plots| - i
  {
    hide Ripe, Balanced, Complete, SettlePlot, GoldenFits, PaysAlways, Passed, Earns, EarnsMore;
    if i < |s.plots| {
      var (t, ev') := SettlePlot(e, s, i, from, to, online, ev);
      OnePlotWorks(e, s, i, from, to, online, ev);
      SettlePlotPasses(e, s, i, from, to, online, ev);
      TradeKept(s, t);
      GoldenStillFitsIf(e, s, t);
      LaterPlotsStand(e, s, t, i, to);
      PlotsWork(e, t, i + 1, from, to, online, ev', paying);
      RipeHereOrLater(e, s, i, to);
      var (r, ev'') := SettlePlots(e, t, i + 1, from, to, online, ev');
      WorkedOn(e, s, ev, t, ev', r, ev'', Ripe(e, s, s.plots[i], to), RipeFrom(e, s, i + 1, to), paying);
    }
  }

  lemma GoldenStillFitsIf(e: Env, s: Save, t: Save)
    requires SameTrade(s, t)
    ensures GoldenFits(e, s) ==> GoldenFits(e, t)
  {
    hide GoldenFits;
    if GoldenFits(e, s) {
      GoldenStillFits(e, s, t);
    }
  }

  lemma RipeHereOrLater(e: Env, s: Save, i: nat, to: int)
    requires i < |s.plots|
    ensures RipeFrom(e, s, i, to) <==> Ripe(e, s, s.plots[i], to) || RipeFrom(e, s, i + 1, to)
  {
    hide Ripe;
  }

  // ---- One Advance ----

  lemma ArrivalsHarvestNothing(e: Env, s: Save, to: int)
    requires to > s.updatedAt
    ensures Arrivals(e, s, to).1.autoHarvested == map[]
  {
    hide Roll, RollRange, GiftChance, EventInterval, EventDurations, BlocksEvents, BlocksGifts, ClearEvent;
  }

  lemma ClockHarvestsNothing(e: Env, s: Save, elapsed: int, online: bool, ev: Report)
    requires elapsed >= 0
    ensures AdvanceScarecrows(e, s, elapsed, online, ev).1.autoHarvested == ev.autoHarvested
  {
    hide FillPouches, ScarecrowsIdle, ClockTarget, ClockRate, SatMul;
    IdleScarecrows(e, s);
    var clock := SatAdd(Max(s.scarecrowClock, 0), SatMul(elapsed, ClockRate(e, online)));
    if !ScarecrowsIdle(e, s) && ClockTarget(e) > 0 && clock / ClockTarget(e) > 0 {
      FillingReportsPouchesOnly(e, s.(scarecrowClock := clock % ClockTarget(e)), 0, clock / ClockTarget(e), ev);
    }
  }

  lemma AmbientKeepsMoney(s: Save, r: Save)
    requires Ambient(s, r)
    ensures SameMoney(s, r) && r.activeContract == s.activeContract
  {
  }

  lemma MoneyOn(s: Save, s1: Save, s2: Save, r: Save)
    requires SameMoney(s, s1) && SameMoney(s2, r) && s1.activeContract == s.activeContract
    ensures SameMoney(s1, s2) ==> SameMoney(s, r)
    ensures EarnsMore(s1, s2) ==> EarnsMore(s, r)
  {
  }

  lemma AdvanceWorks(e: Env, s: Save, to: int, paying: bool)
    requires Balanced(s) && !Complete(s) && to > s.updatedAt
    requires paying ==> GoldenAlwaysFits(e, s) && PaysAlways(e.content)
    ensures var (r, ev) := Advance(e, s, to);
      var ripe := RipeFrom(e, Prelude(e, s, to).0, 0, to);
      && (ev.autoHarvested != map[] <==> ripe) && (!ripe ==> SameMoney(s, r)) && (ripe && paying ==> EarnsMore(s, r))
  {
    hide Balanced, Complete, Prelude, SettlePlots, CheckAchievements, GoldenFits, PaysAlways, Ripe, RipeFrom, EarnsMore,
      SameMoney, Earns, Ambient, Passed;
    var elapsed := to - s.updatedAt;
    var online := elapsed <= ONLINE_THRESHOLD;
    var (s1, ev1) := Prelude(e, s, to);
    PreludeHarvestsNothing(e, s, to);
    PreludeIsAmbient(e, s, to);
    AmbientPasses(s, s1);
    AmbientKeepsMoney(s, s1);
    if paying {
      TradesAsBefore(s, s1);
      GoldenStillFits(e, s.(eventId := s1.eventId), s1);
    }
    PlotsWork(e, s1, 0, s.updatedAt, to, online, ev1, paying);
    var s2 := SettlePlots(e, s1, 0, s.updatedAt, to, online, ev1).0;
    var s3 := CheckAchievements(s2.(updatedAt := to), e.content.achievements, to).0;
    ChecksKeepMoney(s2, s3);
    MoneyOn(s, s1, s2, s3);
  }

  lemma PreludeHarvestsNothing(e: Env, s: Save, to: int)
    requires to > s.updatedAt
    ensures Prelude(e, s, to).1.autoHarvested == map[]
  {
    hide Arrivals, AdvanceScarecrows;
    ArrivalsHarvestNothing(e, s, to);
    var (t, ev) := Arrivals(e, s, to);
    var elapsed := to - s.updatedAt;
    ClockHarvestsNothing(e, t, elapsed, elapsed <= ONLINE_THRESHOLD, ev);
  }

  lemma TradesAsBefore(s: Save, s1: Save)
    requires Ambient(s, s1)
    ensures SameTrade(s.(eventId := s1.eventId), s1)
  {
  }

  lemma ChecksKeepMoney(s: Save, r: Save)
    requires r == s.(updatedAt := r.updatedAt, achievements := r.achievements)
    ensures SameMoney(s, r)
  {
  }

  // Time harvests exactly when, once events have come and gone, some plot is ripe; and
  // when none is, it leaves the wallet, the books and every earnings counter alone.
  lemma TimeHarvestsExactlyWhen(e: Env, s: Save, to: int)
    requires Balanced(s) && !Complete(s) && to > s.updatedAt
    ensures var (r, ev) := Advance(e, s, to);
      var ripe := RipeFrom(e, Prelude(e, s, to).0, 0, to);
      (ev.autoHarvested != map[] <==> ripe) && (!ripe ==> SameMoney(s, r))
  {
    hide Advance, Balanced, Complete, Prelude, RipeFrom, SameMoney;
    AdvanceWorks(e, s, to, false);
  }

  // On content whose every harvest pays, time credits coins exactly when some plot is
  // ripe; inside a contract short of saturation, exactly then does its counter rise.
  lemma TimeCreditsExactlyWhen(e: Env, s: Save, to: int)
    requires Balanced(s) && !Complete(s) && to > s.updatedAt
    requires GoldenAlwaysFits(e, s) && PaysAlways(e.content)
    ensures var r := Advance(e, s, to).0;
      var ripe := RipeFrom(e, Prelude(e, s, to).0, 0, to);
      && (r.books.earned > s.books.earned <==> ripe)
      && (s.activeContract != NoContract && 0 <= s.contractEarnings < MAX ==>
            (r.contractEarnings > s.contractEarnings <==> ripe))
  {
    hide Advance, Balanced, Complete, Prelude, RipeFrom, GoldenFits, PaysAlways;
    AdvanceWorks(e, s, to, true);
  }

  // ---- Inside a contract ----

  lemma NothingRipens(e: Env, s: Save, to: int)
    requires BlocksAutomation(s)
    ensures !RipeFrom(e, s, 0, to)
  {
  }

  // Bare Hands and Clockwork Denied are earned by hand: inside a contract an Advance
  // harvests, or touches the money at all, only under Lean Season and on a ripe plot.
  lemma OnlyLeanSeasonEarnsByItself(e: Env, s: Save, to: int)
    requires Balanced(s) && !Complete(s) && s.activeContract != NoContract
    ensures var (r, ev) := Advance(e, s, to);
      ev.autoHarvested != map[] || !SameMoney(s, r) ==>
        s.activeContract.LeanSeason? && to > s.updatedAt && RipeFrom(e, Prelude(e, s, to).0, 0, to)
  {
    hide Balanced, Complete, Prelude, RipeFrom, SettlePlots, CheckAchievements;
    if to > s.updatedAt {
      TimeHarvestsExactlyWhen(e, s, to);
      var s1 := Prelude(e, s, to).0;
      PreludeIsAmbient(e, s, to);
      AmbientKeepsMoney(s, s1);
      if BlocksAutomation(s1) {
        NothingRipens(e, s1, to);
      }
    }
  }

  // Every Advance of the run that is made under a contract other than Lean Season leaves
  // the money alone.
  predicate EarnedByHand(e: Env, s: Save, moves: seq<Move>)
    decreases |moves|
  {
    moves != [] ==>
      && (BlocksAutomation(s) ==> SameMoney(s, Advance(e, s, moves[0].now).0))
      && EarnedByHand(e, Play(e, s, moves[0]), moves[1..])
  }

  lemma {:induction false} EveryRunEarnsByHand(e: Env, s: Save, moves: seq<Move>)
    requires Kept(s)
    ensures EarnedByHand(e, s, moves)
    decreases |moves|
  {
    hide Balanced, Complete, InOrder, Restricted, Advance, Play, SameMoney, RipeFrom;
    if moves != [] {
      if BlocksAutomation(s) {
        OnlyLeanSeasonEarnsByItself(e, s, moves[0].now);
      }
      PlayKeeps(e, s, moves[0]);
      EveryRunEarnsByHand(e, Play(e, s, moves[0]), moves[1..]);
    }
  }
}
