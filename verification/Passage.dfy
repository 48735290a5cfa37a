// What the passage of time alone can do to a save: everything Advance may change, and
// the ledger it keeps balanced.
module Passage {
  import opened Common
  import opened Money
  import opened FarmState
  import opened FarmAdvance
  import opened FastPath
  import C = Content

  // The books explain the wallet: until what came in passes the largest int64, the
  // wallet is what the run began with, plus earnings, less payments.
  predicate Balanced(s: Save) {
    && 0 <= s.books.start && 0 <= s.books.earned && 0 <= s.books.spent
    && 0 <= s.coins <= MAX && s.runEarnings == Min(s.books.earned, MAX)
    && s.runEarnings <= s.lifetimeEarnings <= MAX
    && (s.books.start + s.books.earned <= MAX ==> s.coins == s.books.start + s.books.earned - s.books.spent)
  }

  // No plot was automated, no contract started, finished or helped along, nothing
  // bought, nothing owned lost; lifetime earnings never fall.
  predicate Passed(s: Save, r: Save) {
    && SameFlags(s.plots, r.plots) && SameCampaign(s, r)
    && r.zones == s.zones && r.purchasedPlots == s.purchasedPlots && r.upgrades == s.upgrades
    && r.multipliers == s.multipliers && r.seedUpgrades == s.seedUpgrades && r.rebirths == s.rebirths
    && r.starseeds == s.starseeds && |r.pouches| == |s.pouches|
    && (s.lifetimeEarnings <= MAX ==> s.lifetimeEarnings <= r.lifetimeEarnings <= MAX)
    && (Balanced(s) ==> Balanced(r))
  }

  predicate SameFlags(p: seq<Plot>, q: seq<Plot>) {
    |q| == |p| && forall i :: 0 <= i < |p| ==> q[i].autoHarvest == p[i].autoHarvest && q[i].autoSow == p[i].autoSow
  }

  predicate SameCampaign(s: Save, r: Save) {
    && r.contractsUnlocked == s.contractsUnlocked && r.contractsCompleted == s.contractsCompleted
    && r.activeContract == s.activeContract && r.contractRebirths == s.contractRebirths
    && r.contractStarseeds == s.contractStarseeds && r.nameStyle == s.nameStyle
    && (s.activeContract == NoContract ==> r.contractEarnings == s.contractEarnings)
    && (0 <= s.contractEarnings <= MAX ==> 0 <= r.contractEarnings <= MAX)
  }

  lemma PassedOn(s: Save, t: Save, r: Save)
    requires Passed(s, t) && Passed(t, r)
    ensures Passed(s, r)
  {
    hide Balanced;
  }

  lemma CreditPasses(s: Save, amount: int)
    requires Quiet(s)
    ensures Passed(s, Credit(s, amount)) && Quiet(Credit(s, amount))
  {
  }

  lemma PayPasses(s: Save, cost: int)
    requires 0 <= cost <= s.coins
    ensures Passed(s, Pay(s, cost)) && (Quiet(s) ==> Quiet(Pay(s, cost)))
  {
  }

  // Changing a plot's crop, its timer or its visitor is no more than time can do.
  lemma TillPasses(s: Save, i: nat, plot: Plot)
    requires i < |s.plots| && plot.autoHarvest == s.plots[i].autoHarvest && plot.autoSow == s.plots[i].autoSow
    ensures Passed(s, s.(plots := s.plots[i := plot])) && (Quiet(s) ==> Quiet(s.(plots := s.plots[i := plot])))
  {
  }

  lemma ReapPasses(e: Env, s: Save, crop: C.Crop, matureAt: int, ev: Report)
    requires Quiet(s)
    ensures var t := Reap(e, s, crop, matureAt, ev).0; Passed(s, t) && Quiet(t)
  {
    hide HarvestPayout, Credit, Passed, Quiet;
    var (y, s1) := HarvestPayout(e, s, crop, matureAt);
    assert Passed(s, s1) && Quiet(s1) by { DrawsPass(s, s1); }
    CreditPasses(s1, y.payout);
    CreditPasses(Credit(s1, y.payout), y.discovery);
    var s2 := Credit(Credit(s1, y.payout), y.discovery);
    var s3 := s2.(lifetimeHarvests := SatAdd(s2.lifetimeHarvests, 1));
    assert Passed(s2, s3) && Quiet(s3) by { HarvestCountPasses(s2, SatAdd(s2.lifetimeHarvests, 1)); }
    PassedOn(s, s1, Credit(s1, y.payout));
    PassedOn(s, Credit(s1, y.payout), s2);
    PassedOn(s, s2, s3);
  }

  lemma DrawsPass(s: Save, r: Save)
    requires r == s.(draws := r.draws)
    ensures Passed(s, r) && (Quiet(s) ==> Quiet(r))
  {
  }

  lemma HarvestCountPasses(s: Save, n: int)
    ensures Passed(s, s.(lifetimeHarvests := n)) && (Quiet(s) ==> Quiet(s.(lifetimeHarvests := n)))
  {
  }

  lemma ReplantPasses(e: Env, s: Save, i: nat, crop: C.Crop, matureAt: int, to: int, ev: Report)
    requires i < |s.plots| && Quiet(s)
    ensures var t := Replant(e, s, i, crop, matureAt, to, ev).0; Passed(s, t) && Quiet(t)
  {
    hide Passed, Quiet, SeedCost, Unlocked, SeasonalPlantable;
    var plot := s.plots[i];
    var sow := SowCrop(e, plot, crop);
    var cost := SeedCost(e, s, sow);
    var t := Replant(e, s, i, crop, matureAt, to, ev).0;
    TillPasses(s, i, plot.(crop := "", plantedAt := 0));
    if plot.autoSow && s.coins >= cost {
      PayPasses(s, cost);
      var next := Resown(plot, sow, crop, matureAt);
      TillPasses(Pay(s, cost), i, next);
      PassedOn(s, Pay(s, cost), Pay(s, cost).(plots := Pay(s, cost).plots[i := next]));
    }
  }

  lemma HarvestOncePasses(e: Env, s: Save, i: nat, crop: C.Crop, matureAt: int, to: int, ev: Report)
    requires i < |s.plots| && Quiet(s)
    ensures var t := HarvestOnce(e, s, i, crop, matureAt, to, ev).0; Passed(s, t) && Quiet(t)
  {
    hide Passed, Quiet, Reap, Replant;
    var (t, ev') := Reap(e, s, crop, matureAt, ev);
    ReapPasses(e, s, crop, matureAt, ev);
    ReplantPasses(e, t, i, crop, matureAt, to, ev');
    PassedOn(s, t, Replant(e, t, i, crop, matureAt, to, ev').0);
  }

  lemma BatchPasses(e: Env, s: Save, i: nat, crop: C.Crop, grow: C.pos, matureAt: int, to: int, ev: Report)
    requires i < |s.plots| && Quiet(s) && matureAt <= to
    ensures var t := Batch(e, s, i, crop, grow, matureAt, to, ev).0; Balanced(s) ==> Passed(s, t) && Quiet(t)
  {
    hide Passed, Quiet, SeedCost, ExpectedPayout, Credit;
    if Balanced(s) {
      var n := (to - matureAt) / grow + 1;
      var seeds := SatMul(SeedCost(e, s, crop), n);
      var gross := SatMul(ExpectedPayout(e, s, crop, matureAt), n);
      SatMulCaps(SeedCost(e, s, crop), n);
      var t := Credit(s, gross);
      CreditPasses(s, gross);
      assert 0 <= t.coins by { assert Passed(s, t); BalanceCarried(s, t); }
      var paid := if seeds > t.coins then t.coins else seeds;
      PayPasses(t, paid);
      var v := Pay(t, paid);
      HarvestCountPasses(v, SatAdd(v.lifetimeHarvests, n));
      var w := v.(lifetimeHarvests := SatAdd(v.lifetimeHarvests, n));
      var plot := w.plots[i].(plantedAt := matureAt + (n - 1) * grow);
      TillPasses(w, i, plot);
      PassedOn(s, t, v);
      PassedOn(s, v, w);
      PassedOn(s, w, w.(plots := w.plots[i := plot]));
    }
  }

  lemma BalanceCarried(s: Save, t: Save)
    requires Balanced(s) && Passed(s, t)
    ensures Balanced(t)
  {
  }

  lemma {:induction false} CyclesPass(
    e: Env, s: Save, i: nat, crop: C.Crop, grow: C.pos, matureAt: int, cycles: nat, to: int, ev: Report)
    requires i < |s.plots| && Quiet(s) && Balanced(s)
    ensures var t := Cycles(e, s, i, crop, grow, matureAt, cycles, to, ev).0; Passed(s, t) && Quiet(t) && Balanced(t)
    decreases Max(to - matureAt + 1, 0)
  {
    hide Passed, Quiet, Balanced, Batch, CanBatch, HarvestOnce, GrowSeconds;
    Stays(s);
    if matureAt > to {
    } else if cycles >= AUTO_CYCLE_CAP {
      BatchPasses(e, s, i, crop, grow, matureAt, to, ev);
      BalanceCarried(s, if CanBatch(e, s, i, crop, matureAt, to) then Batch(e, s, i, crop, grow, matureAt, to, ev).0 else s);
    } else {
      var (t, ev', next) := HarvestOnce(e, s, i, crop, matureAt, to, ev);
      HarvestOncePasses(e, s, i, crop, matureAt, to, ev);
      BalanceCarried(s, t);
      if next.Some? {
        var g := if next.value.id != crop.id then GrowSeconds(e, t, next.value) else grow;
        CyclesPass(e, t, i, next.value, g, matureAt + g, cycles + 1, to, ev');
        PassedOn(s, t, Cycles(e, t, i, next.value, g, matureAt + g, cycles + 1, to, ev').0);
      }
    }
  }

  lemma Stays(s: Save)
    ensures Passed(s, s)
  {
  }

  lemma CritterPasses(e: Env, s: Save, i: nat, ev: Report)
    requires i < |s.plots|
    ensures var t := MaybeCritter(e, s, i, ev).0; Passed(s, t) && t.contractEarnings == s.contractEarnings
  {
    hide Passed, Quiet, CritterCount;
    Stays(s);
    var kinds := e.content.critters.kinds;
    var t := Roll(e, s, 100).1;
    DrawsPass(s, t);
    if kinds != [] {
      var (k, v) := RollRange(e, t, 0, |kinds| - 1);
      var plot := v.plots[i].(critter := kinds[k]);
      DrawsPass(s, v);
      TillPasses(v, i, plot);
      PassedOn(s, v, v.(plots := v.plots[i := plot]));
    }
  }

  // While a contract's goal is open, either its rules idle every automatic plot or no
  // harvest of this save can reach the goal.
  lemma OpenContractIsQuiet(s: Save)
    requires !Complete(s)
    ensures BlocksAutomation(s) || Quiet(s)
    ensures Quiet(s) ==> !Complete(s) && !BlocksAutomation(s)
  {
  }

  lemma SettlePlotPasses(e: Env, s: Save, i: nat, from: int, to: int, online: bool, ev: Report)
    requires i < |s.plots| && Balanced(s) && !Complete(s)
    ensures var t := SettlePlot(e, s, i, from, to, online, ev).0; Passed(s, t) && Balanced(t) && !Complete(t)
  {
    hide Passed, Quiet, Balanced, Cycles, MaybeCritter, GrowSeconds, Complete, BlocksAutomation;
    var plot := s.plots[i];
    Stays(s);
    OpenContractIsQuiet(s);
    CritterPasses(e, s, i, ev);
    BalanceCarried(s, MaybeCritter(e, s, i, ev).0);
    SameGoal(s, MaybeCritter(e, s, i, ev).0);
    var found := C.CropIn(e.content.crops, plot.crop);
    if plot.crop != "" && found.Some? && plot.autoHarvest && !BlocksAutomation(s) {
      var crop := found.value;
      var grow := GrowSeconds(e, s, crop);
      CyclesPass(e, s, i, crop, grow, plot.plantedAt + grow, 0, to, ev);
      QuietIsOpen(Cycles(e, s, i, crop, grow, plot.plantedAt + grow, 0, to, ev).0);
    }
  }

  lemma QuietIsOpen(s: Save)
    ensures Quiet(s) ==> !Complete(s)
  {
  }

  lemma SameGoal(s: Save, t: Save)
    requires Passed(s, t) && !Complete(s) && t.contractEarnings == s.contractEarnings
    ensures !Complete(t)
  {
  }

  lemma {:induction false} SettlePlotsPass(e: Env, s: Save, i: nat, from: int, to: int, online: bool, ev: Report)
    requires Balanced(s) && !Complete(s)
    ensures var t := SettlePlots(e, s, i, from, to, online, ev).0; Passed(s, t) && Balanced(t) && !Complete(t)
    decreases |s.plots| - i
  {
    hide Passed, Balanced, SettlePlot, Complete;
    Stays(s);
    if i < |s.plots| {
      var (t, ev') := SettlePlot(e, s, i, from, to, online, ev);
      SettlePlotPasses(e, s, i, from, to, online, ev);
      SettlePlotsPass(e, t, i + 1, from, to, online, ev');
      PassedOn(s, t, SettlePlots(e, t, i + 1, from, to, online, ev').0);
    }
  }

  // Events, parcels, the drop clock and achievements leave the ledger and the campaign alone.
  predicate Ambient(s: Save, r: Save) {
    r == s.(draws := r.draws, eventId := r.eventId, eventStartedAt := r.eventStartedAt, eventEndsAt := r.eventEndsAt,
            giftPending := r.giftPending, giftArrivedAt := r.giftArrivedAt, pouches := r.pouches,
            scarecrowClock := r.scarecrowClock, achievements := r.achievements, updatedAt := r.updatedAt)
    && |r.pouches| == |s.pouches|
  }

  lemma AmbientPasses(s: Save, r: Save)
    requires Ambient(s, r)
    ensures Passed(s, r) && (!Complete(s) ==> !Complete(r)) && (Balanced(s) ==> Balanced(r))
  {
  }

  // Under a contract that denies them, nothing arrives and nothing drops.
  predicate Denied(s: Save, r: Save) {
    BlocksEvents(s) ==> r.eventId == "" && r.giftPending == s.giftPending && r.pouches == s.pouches
  }

  // All that events and parcels change.
  predicate Arrived(s: Save, r: Save) {
    r == s.(draws := r.draws, eventId := r.eventId, eventStartedAt := r.eventStartedAt, eventEndsAt := r.eventEndsAt,
            giftPending := r.giftPending, giftArrivedAt := r.giftArrivedAt)
  }

  lemma ArrivedOn(s: Save, t: Save, r: Save)
    requires Arrived(s, t) && Arrived(t, r)
    ensures Arrived(s, r)
  {
  }

  lemma ArrivalsArrive(e: Env, s: Save, to: int)
    requires to > s.updatedAt
    ensures Arrived(s, Arrivals(e, s, to).0)
  {
    hide Arrived, RollEvent, RollGift, BlocksEvents, BlocksGifts, ClearEvent;
    var elapsed := to - s.updatedAt;
    var online := elapsed <= ONLINE_THRESHOLD;
    var ev := NoReport.(elapsed := elapsed);
    EventCleared(s);
    var s1 := if BlocksEvents(s) && s.eventId != "" then ClearEvent(s) else s;
    EventCleared(s1);
    var over := s1.eventId != "" && to >= s1.eventEndsAt;
    var ev2 := if over then ev.(eventEnded := s1.eventId) else ev;
    var s2 := if over then ClearEvent(s1) else s1;
    ArrivedOn(s, s1, s2);
    EventArrives(e, s2, elapsed, to, ev2);
    var (s3, ev3) := if online && !BlocksEvents(s2) then RollEvent(e, s2, elapsed, to, ev2) else (s2, ev2);
    ArrivedOn(s, s2, s3);
    GiftArrives(e, s3, elapsed, online, to, ev3);
    ArrivedOn(s, s3, Arrivals(e, s, to).0);
  }

  lemma EventCleared(s: Save)
    ensures Arrived(s, ClearEvent(s)) && Arrived(s, s)
  {
  }

  lemma EventArrives(e: Env, s: Save, elapsed: int, to: int, ev: Report)
    ensures Arrived(s, RollEvent(e, s, elapsed, to, ev).0) && Arrived(s, s)
  {
    hide EventInterval, EventDurations, RollRange, Roll, Arrived;
    DrawsArrive(s, s);
    if e.content.events != [] {
      var (lo, hi) := EventInterval(e, s);
      var s1 := RollRange(e, s, 0, hi - lo).1;
      RollOnlyDraws(e, s1, 10000);
      var s2 := Roll(e, s1, 10000).1;
      DrawsArrive(s, s2);
      var (k, s3) := RollRange(e, s2, 0, |e.content.events| - 1);
      var (dmin, dmax) := EventDurations(e, s3);
      var (extra, s4) := RollRange(e, s3, 0, dmax - dmin);
      DrawsArrive(s, s4);
      EventSet(s4, e.content.events[k].id, to, to + dmin + extra);
      ArrivedOn(s, s4, s4.(eventId := e.content.events[k].id, eventStartedAt := to, eventEndsAt := to + dmin + extra));
    }
  }

  lemma DrawsArrive(s: Save, r: Save)
    requires r == s.(draws := r.draws)
    ensures Arrived(s, r)
  {
  }

  lemma EventSet(s: Save, id: string, start: int, end: int)
    ensures Arrived(s, s.(eventId := id, eventStartedAt := start, eventEndsAt := end))
  {
  }

  lemma RollOnlyDraws(e: Env, s: Save, n: nat)
    requires n > 0
    ensures Roll(e, s, n).1 == s.(draws := s.draws + 1)
  {
  }

  lemma GiftArrives(e: Env, s: Save, elapsed: int, online: bool, to: int, ev: Report)
    ensures Arrived(s, RollGift(e, s, elapsed, online, to, ev).0) && Arrived(s, s)
  {
    hide GiftChance;
  }

  lemma PreludeIsAmbient(e: Env, s: Save, to: int)
    requires to > s.updatedAt
    ensures Ambient(s, Prelude(e, s, to).0)
  {
    hide Arrivals, AdvanceScarecrows;
    var (t, ev) := Arrivals(e, s, to);
    ArrivalsArrive(e, s, to);
    var elapsed := to - s.updatedAt;
    assert Prelude(e, s, to) == AdvanceScarecrows(e, t, elapsed, elapsed <= ONLINE_THRESHOLD, ev);
  }

  lemma DeniedAtOnce(e: Env, s: Save, to: int)
    requires to > s.updatedAt
    ensures Denied(s, Prelude(e, s, to).0)
  {
    hide RollEvent, RollGift, AdvanceScarecrows;
    if BlocksEvents(s) {
      var elapsed := to - s.updatedAt;
      var quiet := if s.eventId != "" then ClearEvent(s) else s;
      IdleUnderDenial(e, quiet, elapsed, elapsed <= ONLINE_THRESHOLD, NoReport.(elapsed := elapsed));
    }
  }

  lemma IdleUnderDenial(e: Env, s: Save, elapsed: int, online: bool, ev: Report)
    requires elapsed >= 0 && BlocksScarecrow(s)
    ensures AdvanceScarecrows(e, s, elapsed, online, ev) == (s, ev)
  {
    hide FillPouches, ClockTarget;
  }

  // Time passes without completing a contract, automating a plot, or unbalancing the
  // books, whatever happened and however long it was.
  lemma AdvancePasses(e: Env, s: Save, to: int)
    requires Balanced(s) && !Complete(s)
    ensures var (t, ev) := Advance(e, s, to);
      && Passed(s, t) && Balanced(t) && !Complete(t) && ev.contractCompleted == NoContract
      && (s.eventId == "" ==> Denied(s, t))
  {
    hide Passed, Balanced, Prelude, SettlePlots, CheckAchievements, Complete;
    Stays(s);
    if to > s.updatedAt {
      var online := to - s.updatedAt <= ONLINE_THRESHOLD;
      var (s1, ev1) := Prelude(e, s, to);
      PreludeIsAmbient(e, s, to);
      DeniedAtOnce(e, s, to);
      AmbientPasses(s, s1);
      var (s2, ev2) := SettlePlots(e, s1, 0, s.updatedAt, to, online, ev1);
      SettlePlotsPass(e, s1, 0, s.updatedAt, to, online, ev1);
      var (s3, newly) := CheckAchievements(s2.(updatedAt := to), e.content.achievements, to);
      AmbientPasses(s2, s3);
      PassedOn(s, s1, s2);
      PassedOn(s, s2, s3);
      SameCompleted(s, s3);
    }
  }

  lemma SameCompleted(s: Save, t: Save)
    requires Passed(s, t)
    ensures t.contractsCompleted == s.contractsCompleted
  {
  }
}
