// The shop's prices as the farm grows: none ever falls, and every product behind them
// stays inside int64, as long as the content's base prices are within the ceiling.
module Prices {
  import opened Common
  import opened Money
  import opened FarmState
  import C = Content

  lemma {:induction false} LadderRises(base: int, growth: C.growth, k: nat, n: nat)
    requires 1 <= base <= CEILING && k <= n
    ensures LadderPrice(base, growth, k) <= LadderPrice(base, growth, n)
    decreases n
  {
    if k < n {
      LadderRises(base, growth, k, n - 1);
      LadderStep(base, growth, n - 1);
    }
  }

  // A permanent upgrade, a run's multiplier or a strain: a higher level never costs less.
  lemma HigherLevelsCostNoLess(cost: C.price, growth: C.growth, maxLevel: C.pos, k: nat, n: nat)
    requires cost <= CEILING && k <= n
    ensures LevelCost(cost, growth, maxLevel, n).Some? ==>
              && LevelCost(cost, growth, maxLevel, k).Some?
              && 1 <= LevelCost(cost, growth, maxLevel, k).value <= LevelCost(cost, growth, maxLevel, n).value <= CEILING
  {
    LadderRises(cost, growth, k, n);
    LadderBounded(cost, growth, k);
    LadderBounded(cost, growth, n);
  }

  lemma DiscountMonotone(a: int, b: int, keep: int)
    requires 0 <= a <= b && 1 <= keep <= 100
    requires b <= CEILING
    ensures 0 <= Discounted(a, keep) <= Discounted(b, keep) <= b
  {
    hide I64;
    MulMonotone(a, b, keep);
    MulMonotone(0, a, keep);
    MulMonotone(keep, 100, b);
    FitsI64(a * keep);
    FitsI64(b * keep);
  }

  // A discounted price is what it should be exactly when its product fits.
  lemma TheDiscountIsExactWhen(cost: nat, keep: nat)
    ensures Discounted(cost, keep) == cost * keep / 100 <==> cost * keep <= MAX
  {
    hide I64;
    var product := cost * keep;
    MulMonotone(0, cost, keep);
    if product <= MAX {
      FitsI64(product);
    } else {
      WrapsDown(product);
      HundredthsFall(I64(product), product);
    }
  }

  lemma HundredthsFall(y: int, x: int)
    requires x >= 200 && y <= x - 200
    ensures Quo(y, 100) < x / 100
  {
  }

  // Plots, after any discount the farm has.
  lemma MorePlotsCostNoLess(e: Env, s: Save, more: nat)
    requires e.content.land.basePlotCost <= CEILING
    ensures var later := s.(purchasedPlots := s.purchasedPlots + more);
      NextPlotCost(e, later).Some? ==>
        && NextPlotCost(e, s).Some?
        && 1 <= NextPlotCost(e, s).value <= NextPlotCost(e, later).value <= CEILING
  {
    hide LadderPrice, EffectSum;
    var land := e.content.land;
    var off := EffectSum(e.content.upgrades, s.upgrades, C.PlotDiscount);
    var keep := 100 - (if off >= 100 then 99 else off);
    LadderRises(land.basePlotCost, land.growthPct, s.purchasedPlots, s.purchasedPlots + more);
    Bounded(land.basePlotCost, land.growthPct, s.purchasedPlots);
    Bounded(land.basePlotCost, land.growthPct, s.purchasedPlots + more);
    DiscountMonotone(LadderPrice(land.basePlotCost, land.growthPct, s.purchasedPlots),
                     LadderPrice(land.basePlotCost, land.growthPct, s.purchasedPlots + more), keep);
  }

  lemma Bounded(base: int, growth: C.growth, n: nat)
    requires 1 <= base <= CEILING
    ensures 1 <= LadderPrice(base, growth, n) <= CEILING
  {
    LadderBounded(base, growth, n);
  }

  // Auto-harvest, by how many plots already have it.
  lemma MoreAutomationCostsNoLess(e: Env, s: Save, plots: seq<Plot>)
    requires e.content.automation.harvestBaseCost <= CEILING
    requires AutoHarvestCount(s.plots) <= AutoHarvestCount(plots)
    ensures 1 <= PlotAutoHarvestCost(e, s) <= PlotAutoHarvestCost(e, s.(plots := plots)) <= CEILING
  {
    hide AutoHarvestCount, LadderPrice;
    var a := e.content.automation;
    LadderRises(a.harvestBaseCost, a.harvestGrowthPct, AutoHarvestCount(s.plots), AutoHarvestCount(plots));
    Bounded(a.harvestBaseCost, a.harvestGrowthPct, AutoHarvestCount(s.plots));
    Bounded(a.harvestBaseCost, a.harvestGrowthPct, AutoHarvestCount(plots));
  }

  // Scarecrows, whose ladder saturates step by step instead of stopping.
  lemma MoreScarecrowsCostNoLess(e: Env, s: Save, more: seq<int>)
    requires e.content.scarecrow.cost <= CEILING
    ensures var later := s.(pouches := s.pouches + more);
      ScarecrowCost(e, later).Some? ==>
        && ScarecrowCost(e, s).Some?
        && 1 <= ScarecrowCost(e, s).value <= ScarecrowCost(e, later).value <= CEILING
  {
    hide LadderPrice, SaturatingPrice;
    var sc := e.content.scarecrow;
    if sc.cost > 0 {
      LaddersAgree(sc.cost, sc.growthPct, |s.pouches|);
      LaddersAgree(sc.cost, sc.growthPct, |s.pouches + more|);
      LadderRises(sc.cost, sc.growthPct, |s.pouches|, |s.pouches + more|);
      Bounded(sc.cost, sc.growthPct, |s.pouches|);
      Bounded(sc.cost, sc.growthPct, |s.pouches + more|);
    }
  }
}
