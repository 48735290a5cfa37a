// Settling every plot to t1 and then to t2 against settling straight to t2, for any
// number of plots drawing on one wallet.
module TimeSplit {
  import opened Common
  import opened Money
  import opened FarmState
  import opened FarmAdvance
  import opened FastPath
  import C = Content

  // One plot's part in a settlement.
  datatype Stint = Stint(plot: Plot, id: string, gross: nat, seeds: nat, harvests: nat, ripe: nat)

  // So many whole grow times have passed, each worth one harvest and one seed; a plot
  // that does not sow again is harvested once; a manual one is told about as it ripens.
  function Work(plot: Plot, id: string, manual: bool, p: nat, c: nat, grow: C.pos, from: int, to: int): Stint {
    var n := Due(plot.plantedAt + grow, grow, to);
    if manual then Stint(plot, id, 0, 0, 0, if from < plot.plantedAt + grow <= to then 1 else 0)
    else if plot.autoSow then Stint(Shifted(plot, Times(n, grow)), id, Times(n, p), Times(n, c), n, 0)
    else if n == 0 then Stint(plot, id, 0, 0, 0, 0)
    else Stint(plot.(crop := "", plantedAt := 0), id, p, 0, 1, 0)
  }

  function StintOf(e: Env, s: Save, i: nat, from: int, to: int): Stint
    requires i < |s.plots|
  {
    var plot := s.plots[i];
    var crop := C.CropIn(e.content.crops, plot.crop);
    if plot.crop == "" || crop.None? then Stint(plot, "", 0, 0, 0, 0)
    else
      Work(plot, crop.value.id, !plot.autoHarvest || BlocksAutomation(s), Price(e, s, crop.value),
           SeedCost(e, s, crop.value), GrowSeconds(e, s, crop.value), from, to)
  }

  function Mark(ev: Report, t: Stint): Report {
    ev.(autoCoins := ev.autoCoins + t.gross - t.seeds,
        autoHarvested := AddTo(ev.autoHarvested, t.id, t.harvests),
        matured := AddTo(ev.matured, t.id, t.ripe))
  }

  function Enter(s: Save, ev: Report, i: nat, t: Stint): (r: (Save, Report))
    requires i < |s.plots|
    ensures |r.0.plots| == |s.plots|
  {
    (Bank(s, i, t.plot, t.gross, t.seeds, t.harvests), Mark(ev, t))
  }

  // Every plot's stint, in plot order.
  function Pass(e: Env, s: Save, i: nat, from: int, to: int, ev: Report): (r: (Save, Report))
    ensures |r.0.plots| == |s.plots|
    decreases |s.plots| - i
  {
    if i >= |s.plots| then (s, ev)
    else
      var (t, ev') := Enter(s, ev, i, StintOf(e, s, i, from, to));
      Pass(e, t, i + 1, from, to, ev')
  }

  function GrossFrom(e: Env, s: Save, i: nat, from: int, to: int): nat
    decreases |s.plots| - i
  {
    if i >= |s.plots| then 0 else StintOf(e, s, i, from, to).gross + GrossFrom(e, s, i + 1, from, to)
  }

  function HarvestsFrom(e: Env, s: Save, i: nat, from: int, to: int): nat
    decreases |s.plots| - i
  {
    if i >= |s.plots| then 0 else StintOf(e, s, i, from, to).harvests + HarvestsFrom(e, s, i + 1, from, to)
  }

  // ---- What the theorem asks of every plot ----

  // No critter is rolled on an empty plot.
  predicate NoVisits(e: Env, s: Save) {
    !s.crittersEnabled || e.content.critters.kinds == [] || e.content.critters.visitChancePct <= 0
  }

  // A worked plot harvests at a sure price; one that sows again is steady and finds a
  // wallet that holds one of its seeds.
  predicate Fits(e: Env, s: Save, i: nat, to: int)
    requires i < |s.plots|
  {
    var plot := s.plots[i];
    var crop := C.CropIn(e.content.crops, plot.crop);
    plot.crop != "" && crop.Some? && plot.autoHarvest && !BlocksAutomation(s) ==>
      && Quiet(s) && Sure(e, s, crop.value)
      && (plot.autoSow ==> Steady(e, s, i, crop.value, to) && s.coins >= SeedCost(e, s, crop.value))
  }

  predicate AllFit(e: Env, s: Save, i: nat, to: int) {
    NoVisits(e, s) && forall j :: i <= j < |s.plots| ==> Fits(e, s, j, to)
  }

  // ---- One plot ----

  lemma OnePlot(e: Env, s: Save, i: nat, from: int, to: int, online: bool, ev: Report)
    requires i < |s.plots| && NoVisits(e, s) && Fits(e, s, i, to)
    requires var t := StintOf(e, s, i, from, to); Room(s, ev, t.gross, t.harvests)
    ensures SettlePlot(e, s, i, from, to, online, ev) == Enter(s, ev, i, StintOf(e, s, i, from, to))
  {
    hide Price, SeedCost, GrowSeconds, HarvestOnce, Cycles, Batch, MaybeCritter, Unlocked, Times, Due, Quiet, Sure, Bank;
    var plot := s.plots[i];
    BankNothing(s, i);
    var found := C.CropIn(e.content.crops, plot.crop);
    if plot.crop == "" {
      IdleOnline(e, s, i, ev);
    } else if found.Some? && plot.autoHarvest && !BlocksAutomation(s) {
      var crop := found.value;
      var grow := GrowSeconds(e, s, crop);
      if plot.autoSow {
        SowingPlot(e, s, i, crop, Price(e, s, crop), SeedCost(e, s, crop), grow, to, ev);
      } else {
        HarvestedOnce(e, s, i, crop, grow, to, ev);
      }
    }
  }

  lemma IdleOnline(e: Env, s: Save, i: nat, ev: Report)
    requires i < |s.plots| && NoVisits(e, s)
    ensures MaybeCritter(e, s, i, ev) == (s, ev)
  {
  }

  lemma SowingPlot(e: Env, s: Save, i: nat, crop: C.Crop, p: nat, c: nat, grow: C.pos, to: int, ev: Report)
    requires i < |s.plots| && Ready(e, s, i, crop, p, c, grow, to, ev) && s.coins >= c
    ensures var n := DueAt(s, i, grow, to);
      Cycles(e, s, i, crop, grow, s.plots[i].plantedAt + grow, 0, to, ev)
      == (Bank(s, i, Shifted(s.plots[i], Times(n, grow)), Times(n, p), Times(n, c), n),
          Log(ev, crop.id, Times(n, p), Times(n, c), n))
  {
    hide Cycles, Ready, Price, SeedCost;
    assert p >= c by { assert Ready(e, s, i, crop, p, c, grow, to, ev); ReadyProfits(e, s, i, crop, p, c, grow, to, ev); }
    TimesMonotone(AUTO_CYCLE_CAP, c, p);
    CyclesGather(e, s, i, crop, p, c, grow, 0, to, ev);
  }

  lemma ReadyProfits(e: Env, s: Save, i: nat, crop: C.Crop, p: nat, c: nat, grow: C.pos, to: int, ev: Report)
    requires i < |s.plots| && Ready(e, s, i, crop, p, c, grow, to, ev)
    ensures p > c
  {
  }

  lemma HarvestedOnce(e: Env, s: Save, i: nat, crop: C.Crop, grow: C.pos, to: int, ev: Report)
    requires i < |s.plots| && Quiet(s) && Sure(e, s, crop) && !s.plots[i].autoSow
    requires Due(s.plots[i].plantedAt + grow, grow, to) > 0 ==> Room(s, ev, Price(e, s, crop), 1)
    ensures Cycles(e, s, i, crop, grow, s.plots[i].plantedAt + grow, 0, to, ev)
         == if Due(s.plots[i].plantedAt + grow, grow, to) == 0 then (s, ev)
            else (Bank(s, i, s.plots[i].(crop := "", plantedAt := 0), Price(e, s, crop), 0, 1),
                  Log(ev, crop.id, Price(e, s, crop), 0, 1))
  {
    hide Reap, Price, SeedCost, GrowSeconds;
    if Due(s.plots[i].plantedAt + grow, grow, to) > 0 {
      ReapSure(e, s, i, crop, s.plots[i].plantedAt + grow, ev);
    }
  }

  // ---- Stints of different plots do not meet ----

  lemma StintStands(e: Env, s: Save, ev: Report, i: nat, t: Stint, j: nat, from: int, to: int)
    requires i < |s.plots| && j < |s.plots| && i != j
    ensures StintOf(e, Enter(s, ev, i, t).0, j, from, to) == StintOf(e, s, j, from, to)
  {
    hide Price, SeedCost, GrowSeconds, Work, Mark, Bank, BlocksAutomation, Quiet, Sure, Unlocked;
    BankElsewhere(s, i, t.plot, t.gross, t.seeds, t.harvests, j);
    var crop := C.CropIn(e.content.crops, s.plots[j].crop);
    if crop.Some? {
      BankKeepsTerms(e, s, i, t.plot, t.gross, t.seeds, t.harvests, crop.value);
    }
  }

  lemma {:induction false} SumsStand(e: Env, s: Save, ev: Report, i: nat, t: Stint, j: nat, from: int, to: int)
    requires i < |s.plots| && i < j
    ensures GrossFrom(e, Enter(s, ev, i, t).0, j, from, to) == GrossFrom(e, s, j, from, to)
    ensures HarvestsFrom(e, Enter(s, ev, i, t).0, j, from, to) == HarvestsFrom(e, s, j, from, to)
    decreases |s.plots| - j
  {
    hide StintOf, Enter;
    if j < |s.plots| {
      StintStands(e, s, ev, i, t, j, from, to);
      SumsStand(e, s, ev, i, t, j + 1, from, to);
    }
  }

  lemma FitStands(e: Env, s: Save, ev: Report, i: nat, t: Stint, j: nat, to: int)
    requires i < |s.plots| && j < |s.plots| && i != j && Fits(e, s, j, to) && t.gross >= t.seeds
    ensures Fits(e, Enter(s, ev, i, t).0, j, to)
  {
    hide Price, SeedCost, GrowSeconds, Unlocked, SeasonalPlantable, Mark, Bank, BlocksAutomation, Quiet, Sure;
    BankElsewhere(s, i, t.plot, t.gross, t.seeds, t.harvests, j);
    var crop := C.CropIn(e.content.crops, s.plots[j].crop);
    if crop.Some? {
      BankKeepsTerms(e, s, i, t.plot, t.gross, t.seeds, t.harvests, crop.value);
    }
  }

  // A plot that fits at some instant earns more than it spends in any stint.
  lemma StintProfits(e: Env, s: Save, i: nat, from: int, to: int, at: int)
    requires i < |s.plots| && Fits(e, s, i, at)
    ensures var t := StintOf(e, s, i, from, to); t.gross >= t.seeds
  {
    hide Price, SeedCost, GrowSeconds, Unlocked;
    var crop := C.CropIn(e.content.crops, s.plots[i].crop);
    if crop.Some? && Price(e, s, crop.value) > SeedCost(e, s, crop.value) {
      var grow := GrowSeconds(e, s, crop.value);
      TimesMonotone(Due(s.plots[i].plantedAt + grow, grow, to), SeedCost(e, s, crop.value), Price(e, s, crop.value));
    }
  }

  lemma EnterKeepsFit(e: Env, s: Save, ev: Report, i: nat, t: Stint, to: int)
    requires i < |s.plots| && AllFit(e, s, i, to) && t.gross >= t.seeds
    ensures AllFit(e, Enter(s, ev, i, t).0, i + 1, to)
  {
    hide Fits;
    forall j | i + 1 <= j < |s.plots| ensures Fits(e, Enter(s, ev, i, t).0, j, to) {
      FitStands(e, s, ev, i, t, j, to);
    }
  }

  // The loop over the plots computes every plot's stint.
  lemma {:induction false} EveryPlot(e: Env, s: Save, i: nat, from: int, to: int, online: bool, ev: Report)
    requires AllFit(e, s, i, to)
    requires Room(s, ev, GrossFrom(e, s, i, from, to), HarvestsFrom(e, s, i, from, to))
    ensures SettlePlots(e, s, i, from, to, online, ev) == Pass(e, s, i, from, to, ev)
    decreases |s.plots| - i
  {
    hide Fits, SettlePlot, StintOf;
    if i < |s.plots| {
      var t := StintOf(e, s, i, from, to);
      StintProfits(e, s, i, from, to, to);
      OnePlot(e, s, i, from, to, online, ev);
      EnterKeepsFit(e, s, ev, i, t, to);
      SumsStand(e, s, ev, i, t, i + 1, from, to);
      var (u, ev') := Enter(s, ev, i, t);
      EveryPlot(e, u, i + 1, from, to, online, ev');
    }
  }

  // ---- Two stints of one plot join ----

  lemma DueSplits(matureAt: int, grow: C.pos, t1: int, t2: int)
    requires t1 <= t2
    ensures var n := Due(matureAt, grow, t1);
      Due(matureAt, grow, t2) == n + Due(matureAt + Times(n, grow), grow, t2)
    decreases Due(matureAt, grow, t1)
  {
    if matureAt <= t1 {
      DueStep(matureAt, grow, t1);
      DueStep(matureAt, grow, t2);
      DueSplits(matureAt + grow, grow, t1, t2);
    }
  }

  lemma {:induction false} TimesAdds(m: nat, n: nat, x: nat)
    ensures Times(m + n, x) == Times(m, x) + Times(n, x)
  {
    if m > 0 {
      TimesAdds(m - 1, n, x);
    }
  }

  lemma MarkTwice(ev: Report, a: Stint, b: Stint, t: Stint)
    requires a.gross + b.gross == t.gross && a.seeds + b.seeds == t.seeds
    requires a.harvests + b.harvests == t.harvests && a.ripe + b.ripe == t.ripe
    requires a.id == t.id && (b.id == t.id || (b.harvests == 0 && b.ripe == 0))
    ensures Mark(Mark(ev, a), b) == Mark(ev, t)
  {
  }

  predicate Adds(a: Stint, b: Stint, t: Stint) {
    && a.gross + b.gross == t.gross && a.seeds + b.seeds == t.seeds
    && a.harvests + b.harvests == t.harvests && a.ripe + b.ripe == t.ripe
    && a.id == t.id && (b.id == t.id || (b.harvests == 0 && b.ripe == 0)) && b.plot == t.plot
  }

  lemma WorkAdds(plot: Plot, id: string, manual: bool, p: nat, c: nat, grow: C.pos, from: int, t1: int, t2: int)
    requires from <= t1 <= t2 && (plot.autoSow || manual)
    ensures var a := Work(plot, id, manual, p, c, grow, from, t1);
      Adds(a, Work(a.plot, id, manual, p, c, grow, t1, t2), Work(plot, id, manual, p, c, grow, from, t2))
  {
    hide Times;
    if !manual {
      var n := Due(plot.plantedAt + grow, grow, t1);
      var k := Due(plot.plantedAt + grow + Times(n, grow), grow, t2);
      DueSplits(plot.plantedAt + grow, grow, t1, t2);
      TimesAdds(n, k, grow);
      TimesAdds(n, k, p);
      TimesAdds(n, k, c);
    }
  }

  lemma HarvestedOnceAdds(plot: Plot, id: string, p: nat, c: nat, grow: C.pos, from: int, t1: int, t2: int)
    requires from <= t1 <= t2 && !plot.autoSow
    ensures var a := Work(plot, id, false, p, c, grow, from, t1);
      var b := if a.harvests == 0 then Work(a.plot, id, false, p, c, grow, t1, t2) else Stint(a.plot, "", 0, 0, 0, 0);
      Adds(a, b, Work(plot, id, false, p, c, grow, from, t2)) && (a.harvests == 0 ==> a.plot == plot)
  {
  }

  lemma StintsAdd(e: Env, s: Save, ev: Report, i: nat, from: int, t1: int, t2: int)
    requires i < |s.plots| && from <= t1 <= t2
    ensures var a := StintOf(e, s, i, from, t1);
      Adds(a, StintOf(e, Enter(s, ev, i, a).0, i, t1, t2), StintOf(e, s, i, from, t2))
  {
    hide Price, SeedCost, GrowSeconds, Times, Due, Mark, Bank, BlocksAutomation, Quiet, Sure, Unlocked;
    var a := StintOf(e, s, i, from, t1);
    BankElsewhere(s, i, a.plot, a.gross, a.seeds, a.harvests, i);
    var plot := s.plots[i];
    var found := C.CropIn(e.content.crops, plot.crop);
    if plot.crop != "" && found.Some? {
      var crop := found.value;
      var p, c, grow := Price(e, s, crop), SeedCost(e, s, crop), GrowSeconds(e, s, crop);
      var manual := !plot.autoHarvest || BlocksAutomation(s);
      BankKeepsTerms(e, s, i, a.plot, a.gross, a.seeds, a.harvests, crop);
      if manual || plot.autoSow {
        WorkAdds(plot, crop.id, manual, p, c, grow, from, t1, t2);
      } else {
        HarvestedOnceAdds(plot, crop.id, p, c, grow, from, t1, t2);
      }
    }
  }

  lemma StintsJoin(e: Env, s: Save, ev: Report, i: nat, from: int, t1: int, t2: int)
    requires i < |s.plots| && from <= t1 <= t2
    ensures var (u, ev') := Enter(s, ev, i, StintOf(e, s, i, from, t1));
      Enter(u, ev', i, StintOf(e, u, i, t1, t2)) == Enter(s, ev, i, StintOf(e, s, i, from, t2))
  {
    hide StintOf, Mark, Bank, Work;
    StintsAdd(e, s, ev, i, from, t1, t2);
    var a, t := StintOf(e, s, i, from, t1), StintOf(e, s, i, from, t2);
    var b := StintOf(e, Enter(s, ev, i, a).0, i, t1, t2);
    MarkTwice(ev, a, b, t);
    BankTwice(s, i, a.plot, a.gross, a.seeds, a.harvests, b.plot, b.gross, b.seeds, b.harvests);
  }

  // ---- Stints of different plots commute ----

  lemma AddsCommute(t: Tally, a: string, n: nat, b: string, k: nat)
    ensures AddTo(AddTo(t, a, n), b, k) == AddTo(AddTo(t, b, k), a, n)
  {
  }

  lemma EntersCommute(s: Save, ev: Report, i: nat, a: Stint, j: nat, b: Stint)
    requires i < |s.plots| && j < |s.plots| && i != j
    ensures var (t, ev1) := Enter(s, ev, i, a);
      var (u, ev2) := Enter(s, ev, j, b);
      Enter(t, ev1, j, b) == Enter(u, ev2, i, a)
  {
    hide AddTo;
    AddsCommute(ev.autoHarvested, a.id, a.harvests, b.id, b.harvests);
    AddsCommute(ev.matured, a.id, a.ripe, b.id, b.ripe);
    assert s.plots[i := a.plot][j := b.plot] == s.plots[j := b.plot][i := a.plot];
  }

  lemma {:induction false} PassPastAnother(e: Env, s: Save, ev: Report, i: nat, t: Stint, j: nat, from: int, to: int)
    requires i < |s.plots| && i < j
    ensures var (u, ev1) := Enter(s, ev, i, t);
      var (v, ev2) := Pass(e, s, j, from, to, ev);
      Pass(e, u, j, from, to, ev1) == Enter(v, ev2, i, t)
    decreases |s.plots| - j
  {
    hide StintOf, Enter;
    if j < |s.plots| {
      StintStands(e, s, ev, i, t, j, from, to);
      var own := StintOf(e, s, j, from, to);
      EntersCommute(s, ev, i, t, j, own);
      var (v, ev2) := Enter(s, ev, j, own);
      PassPastAnother(e, v, ev2, i, t, j + 1, from, to);
    }
  }

  lemma {:induction false} PassLeavesStint(e: Env, s: Save, ev: Report, i: nat, t1: int, t2: int, j: nat, from: int, to: int)
    requires i < |s.plots| && i < j
    ensures StintOf(e, Pass(e, s, j, from, to, ev).0, i, t1, t2) == StintOf(e, s, i, t1, t2)
    decreases |s.plots| - j
  {
    hide StintOf, Enter;
    if j < |s.plots| {
      var own := StintOf(e, s, j, from, to);
      StintStands(e, s, ev, j, own, i, t1, t2);
      var (v, ev2) := Enter(s, ev, j, own);
      PassLeavesStint(e, v, ev2, i, t1, t2, j + 1, from, to);
    }
  }

  lemma {:induction false} PassSplits(e: Env, s: Save, i: nat, from: int, t1: int, t2: int, ev: Report)
    requires from <= t1 <= t2
    ensures var (u, ev1) := Pass(e, s, i, from, t1, ev);
      Pass(e, u, i, t1, t2, ev1) == Pass(e, s, i, from, t2, ev)
    decreases |s.plots| - i
  {
    hide StintOf, Enter;
    if i < |s.plots| {
      var (a, evA) := Enter(s, ev, i, StintOf(e, s, i, from, t1));
      var later := StintOf(e, a, i, t1, t2);
      PassLeavesStint(e, a, evA, i, t1, t2, i + 1, from, t1);
      PassPastAnother(e, a, evA, i, later, i + 1, from, t1);
      StintsJoin(e, s, ev, i, from, t1, t2);
      var (b, evB) := Enter(s, ev, i, StintOf(e, s, i, from, t2));
      PassSplits(e, b, i + 1, from, t1, t2, evB);
    }
  }

  // ---- Conditions carry over ----

  lemma FitStandsItself(e: Env, s: Save, ev: Report, i: nat, from: int, t1: int, to: int)
    requires i < |s.plots| && Fits(e, s, i, to)
    ensures Fits(e, Enter(s, ev, i, StintOf(e, s, i, from, t1)).0, i, to)
  {
    hide Price, SeedCost, GrowSeconds, Unlocked, SeasonalPlantable, Due, Times, Mark, Bank, BlocksAutomation, Quiet, Sure;
    StintProfits(e, s, i, from, t1, to);
    var t := StintOf(e, s, i, from, t1);
    BankElsewhere(s, i, t.plot, t.gross, t.seeds, t.harvests, i);
    var crop := C.CropIn(e.content.crops, s.plots[i].crop);
    if crop.Some? {
      BankKeepsTerms(e, s, i, t.plot, t.gross, t.seeds, t.harvests, crop.value);
    }
  }

  lemma {:induction false} PassKeepsFit(e: Env, s: Save, i: nat, from: int, t1: int, to: int, ev: Report)
    requires AllFit(e, s, 0, to)
    ensures AllFit(e, Pass(e, s, i, from, t1, ev).0, 0, to)
    decreases |s.plots| - i
  {
    hide Fits, StintOf;
    if i < |s.plots| {
      var own := StintOf(e, s, i, from, t1);
      StintProfits(e, s, i, from, t1, to);
      var (u, ev') := Enter(s, ev, i, own);
      forall j | 0 <= j < |s.plots| ensures Fits(e, u, j, to) {
        if j == i {
          FitStandsItself(e, s, ev, i, from, t1, to);
        } else {
          FitStands(e, s, ev, i, own, j, to);
        }
      }
      PassKeepsFit(e, u, i + 1, from, t1, to, ev');
    }
  }

  // What a pass adds to the counters, and the most it can add to the wallet.
  lemma {:induction false} PassTotals(e: Env, s: Save, i: nat, from: int, to: int, at: int, ev: Report)
    requires AllFit(e, s, i, at)
    ensures var (u, ev') := Pass(e, s, i, from, to, ev);
      var g, n := GrossFrom(e, s, i, from, to), HarvestsFrom(e, s, i, from, to);
      && s.coins <= u.coins <= s.coins + g && u.runEarnings == s.runEarnings + g
      && u.lifetimeEarnings == s.lifetimeEarnings + g && u.contractEarnings <= s.contractEarnings + g
      && u.lifetimeHarvests == s.lifetimeHarvests + n && ev'.autoCoins <= ev.autoCoins + g
    decreases |s.plots| - i
  {
    hide Fits, StintOf, AddTo;
    if i < |s.plots| {
      var own := StintOf(e, s, i, from, to);
      StintProfits(e, s, i, from, to, at);
      EnterKeepsFit(e, s, ev, i, own, at);
      SumsStand(e, s, ev, i, own, i + 1, from, to);
      var (u, ev') := Enter(s, ev, i, own);
      PassTotals(e, u, i + 1, from, to, at, ev');
    }
  }

  // With every sowing plot steady and affordable and room before saturation, settling
  // to t1 and then to t2 gives the save and the report of settling straight to t2.
  lemma TwoSettlementsAreOne(e: Env, s: Save, from: int, t1: int, t2: int, on1: bool, on2: bool, on: bool, ev: Report)
    requires from <= t1 <= t2 && AllFit(e, s, 0, t1) && AllFit(e, s, 0, t2)
    requires Room(s, ev, GrossFrom(e, s, 0, from, t2), HarvestsFrom(e, s, 0, from, t2))
    ensures var (u, ev1) := SettlePlots(e, s, 0, from, t1, on1, ev);
      && SettlePlots(e, u, 0, t1, t2, on2, ev1) == SettlePlots(e, s, 0, from, t2, on, ev)
      && AllFit(e, u, 0, t2)
      && Room(u, ev1, GrossFrom(e, u, 0, t1, t2), HarvestsFrom(e, u, 0, t1, t2))
  {
    hide AllFit, SettlePlots, Pass, GrossFrom, HarvestsFrom;
    var (u, ev1) := Pass(e, s, 0, from, t1, ev);
    PassSplits(e, s, 0, from, t1, t2, ev);
    PassTotals(e, s, 0, from, t1, t1, ev);
    PassTotals(e, s, 0, from, t2, t2, ev);
    PassKeepsFit(e, s, 0, from, t1, t2, ev);
    PassTotals(e, u, 0, t1, t2, t2, ev1);
    EveryPlot(e, s, 0, from, t1, on1, ev);
    EveryPlot(e, u, 0, t1, t2, on2, ev1);
    EveryPlot(e, s, 0, from, t2, on, ev);
  }

  // ---- Any number of splits ----

  function SettleThrough(e: Env, s: Save, from: int, times: seq<int>, online: int -> bool, ev: Report): (Save, Report)
    decreases |times|
  {
    if times == [] then (s, ev)
    else
      var (u, ev') := SettlePlots(e, s, 0, from, times[0], online(times[0]), ev);
      SettleThrough(e, u, times[0], times[1..], online, ev')
  }

  predicate Ordered(from: int, times: seq<int>)
    decreases |times|
  {
    times == [] || (from <= times[0] && Ordered(times[0], times[1..]))
  }

  lemma {:induction false} LastIsLate(from: int, times: seq<int>)
    requires times != [] && Ordered(from, times)
    ensures from <= times[|times| - 1]
    decreases |times|
  {
    if |times| > 1 {
      LastIsLate(times[0], times[1..]);
    }
  }

  lemma SettlingKeepsFit(e: Env, s: Save, from: int, t1: int, t2: int, online: bool, ev: Report, at: int)
    requires from <= t1 <= t2 && AllFit(e, s, 0, t1) && AllFit(e, s, 0, t2) && AllFit(e, s, 0, at)
    requires Room(s, ev, GrossFrom(e, s, 0, from, t2), HarvestsFrom(e, s, 0, from, t2))
    ensures AllFit(e, SettlePlots(e, s, 0, from, t1, online, ev).0, 0, at)
  {
    hide AllFit, SettlePlots, Pass, GrossFrom, HarvestsFrom;
    var (u, ev1) := Pass(e, s, 0, from, t1, ev);
    PassSplits(e, s, 0, from, t1, t2, ev);
    PassTotals(e, s, 0, from, t1, t1, ev);
    PassTotals(e, s, 0, from, t2, t2, ev);
    PassKeepsFit(e, s, 0, from, t1, t2, ev);
    PassTotals(e, u, 0, t1, t2, t2, ev1);
    PassKeepsFit(e, s, 0, from, t1, at, ev);
    EveryPlot(e, s, 0, from, t1, online, ev);
  }

  // However time is cut, every harvest is paid once, every seed bought once, and every
  // manual crop is reported ripe once: the save and the report are those of one settlement.
  lemma {:induction false} HoweverTimeIsCut(e: Env, s: Save, from: int, times: seq<int>, online: int -> bool, on: bool, ev: Report)
    requires times != [] && Ordered(from, times)
    requires forall j :: 0 <= j < |times| ==> AllFit(e, s, 0, times[j])
    requires var to := times[|times| - 1];
      Room(s, ev, GrossFrom(e, s, 0, from, to), HarvestsFrom(e, s, 0, from, to))
    ensures SettleThrough(e, s, from, times, online, ev) == SettlePlots(e, s, 0, from, times[|times| - 1], on, ev)
    decreases |times|
  {
    hide AllFit, SettlePlots, Room, GrossFrom, HarvestsFrom;
    var to, first, rest := times[|times| - 1], times[0], times[1..];
    var (u, ev') := SettlePlots(e, s, 0, from, first, online(first), ev);
    if rest == [] {
      EveryPlot(e, s, 0, from, to, online(first), ev);
      EveryPlot(e, s, 0, from, to, on, ev);
      assert SettleThrough(e, u, first, rest, online, ev') == (u, ev');
    } else {
      LastIsLate(first, rest);
      TwoSettlementsAreOne(e, s, from, first, to, online(first), on, on, ev);
      forall j | 0 <= j < |rest| ensures AllFit(e, u, 0, rest[j]) {
        SettlingKeepsFit(e, s, from, first, to, online(first), ev, rest[j]);
      }
      HoweverTimeIsCut(e, u, first, rest, online, on, ev');
    }
  }
}
