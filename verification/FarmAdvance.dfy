// Advance as a function of the save: events, gifts, scarecrows, then every plot in
// order, one harvest at a time up to a cap and in one batch beyond it.
module FarmAdvance {
  import opened Common
  import opened Money
  import opened FarmState
  import C = Content

  const AUTO_CYCLE_CAP: nat := 50_000
  const ONLINE_THRESHOLD := 2
  const SCARECROW_ROLL_CAP: nat := 2_000

  type Tally = map<string, int>

  datatype Report = Report(
    elapsed: int, matured: Tally, autoHarvested: Tally, autoCoins: int, discoveries: int, discoveryCoins: int,
    achievements: seq<string>, failed: Tally, golden: int, giftArrived: bool, eventStarted: string,
    eventEnded: string, critterVisits: seq<string>, scarecrowCoins: int, contractCompleted: ContractId)

  const NoReport := Report(0, map[], map[], 0, 0, 0, [], map[], 0, false, "", "", [], 0, NoContract)

  function Bump(t: Tally, key: string, n: int): Tally {
    t[key := (if key in t then t[key] else 0) + n]
  }

  // ---- Before the plots ----

  function ClearEvent(s: Save): Save {
    s.(eventId := "", eventStartedAt := 0, eventEndsAt := 0)
  }

  // A per-tick chance in basis points, capped at certainty.
  function GiftChance(e: Env, s: Save, elapsed: int, online: bool): int {
    var g := e.content.gifts;
    var bonus := EffectSum(e.content.upgrades, s.upgrades, C.GiftRate);
    var interval :=
      if !online then g.offlineIntervalSec
      else if bonus > 0 then g.onlineIntervalSec * 100 / (100 + bonus)
      else g.onlineIntervalSec;
    if interval < 1 then 0
    else if elapsed * 10000 / interval > 10000 then 10000
    else elapsed * 10000 / interval
  }

  function RollGift(e: Env, s: Save, elapsed: int, online: bool, to: int, ev: Report): (Save, Report) {
    if s.giftPending then (s, ev)
    else
      var chance := GiftChance(e, s, elapsed, online);
      if chance <= 0 then (s, ev)
      else
        var (roll, t) := Roll(e, s, 10000);
        if roll < chance then (t.(giftPending := true, giftArrivedAt := to), ev.(giftArrived := true)) else (t, ev)
  }

  function EventInterval(e: Env, s: Save): (int, int) {
    var bonus := EffectSum(e.content.upgrades, s.upgrades, C.EventRate);
    var lo := if bonus > 0 then e.content.eventsConfig.minIntervalSec * 100 / (100 + bonus)
              else e.content.eventsConfig.minIntervalSec;
    var hi := if bonus > 0 then e.content.eventsConfig.maxIntervalSec * 100 / (100 + bonus)
              else e.content.eventsConfig.maxIntervalSec;
    var lo1 := if lo < 1 then 1 else lo;
    (lo1, if hi < lo1 then lo1 else hi)
  }

  function EventDurations(e: Env, s: Save): (int, int) {
    var bonus := EffectSum(e.content.upgrades, s.upgrades, C.EventDuration) + Level(s.upgrades, "stargazer") * 10;
    var ec := e.content.eventsConfig;
    if bonus > 0 then (ec.minDurationSec * (100 + bonus) / 100, ec.maxDurationSec * (100 + bonus) / 100)
    else (ec.minDurationSec, ec.maxDurationSec)
  }

  function RollEvent(e: Env, s: Save, elapsed: int, to: int, ev: Report): (Save, Report) {
    if e.content.events == [] || (s.eventId != "" && to < s.eventEndsAt) then (s, ev)
    else
      var (lo, hi) := EventInterval(e, s);
      var (wait, s1) := RollRange(e, s, 0, hi - lo);
      var interval := lo + wait;
      var raw := elapsed * 10000 / interval;
      var (roll, s2) := Roll(e, s1, 10000);
      if roll >= (if raw < 1 then 1 else raw) then (s2, ev)
      else
        var (k, s3) := RollRange(e, s2, 0, |e.content.events| - 1);
        var id := e.content.events[k].id;
        var (dmin, dmax) := EventDurations(e, s3);
        var (extra, s4) := RollRange(e, s3, 0, dmax - dmin);
        (s4.(eventId := id, eventStartedAt := to, eventEndsAt := to + dmin + extra), ev.(eventStarted := id))
  }

  // ---- Scarecrows ----

  // Every scarecrow's multiplier products are plain int64 products in the source.
  function Synergy(e: Env, s: Save): int {
    var n := if |s.pouches| < 1 then 1 else |s.pouches|;
    I64(100 + I64(e.content.scarecrow.synergyPct * (n - 1)))
  }

  function RebirthBoost(e: Env, s: Save): int {
    I64(100 + I64(e.content.scarecrow.rebirthBonusPct * ProgressionRebirths(s)))
  }

  function ScarecrowDrop(e: Env, s: Save, base: int): int {
    Quo(SatMul(SatMul(base, Synergy(e, s)), RebirthBoost(e, s)), 10_000)
  }

  function ClockTarget(e: Env): int {
    SatMul(e.content.scarecrow.dropIntervalSec, e.content.scarecrow.offlineSlowdown)
  }

  // What one scarecrow gathers from n rolled drops.
  function RollDrops(e: Env, s: Save, n: nat, gained: int): (r: (int, Save))
    ensures r.1 == s.(draws := r.1.draws)
    decreases n
  {
    if n == 0 then (gained, s)
    else
      var (base, t) := RollRange(e, s, e.content.scarecrow.coinsMin, e.content.scarecrow.coinsMax);
      RollDrops(e, t, n - 1, SatAdd(gained, ScarecrowDrop(e, t, base)))
  }

  // Rolled drops up to the cap, then the rest at the mean of the range.
  function DropsFor(e: Env, s: Save, drops: nat): (r: (int, Save))
    ensures r.1 == s.(draws := r.1.draws)
  {
    var rolled := if drops < SCARECROW_ROLL_CAP then drops else SCARECROW_ROLL_CAP;
    var (gained, t) := RollDrops(e, s, rolled, 0);
    if drops > rolled then
      var mean := ScarecrowDrop(e, t, (e.content.scarecrow.coinsMin + e.content.scarecrow.coinsMax) / 2);
      (SatAdd(gained, SatMul(mean, drops - rolled)), t)
    else (gained, t)
  }

  function FillPouches(e: Env, s: Save, i: nat, drops: nat, ev: Report): (r: (Save, Report))
    ensures r.0 == s.(draws := r.0.draws, pouches := r.0.pouches) && |r.0.pouches| == |s.pouches|
    decreases |s.pouches| - i
  {
    if i >= |s.pouches| then (s, ev)
    else
      var (gained, t) := DropsFor(e, s, drops);
      FillPouches(e, t.(pouches := t.pouches[i := SatAdd(t.pouches[i], gained)]), i + 1, drops,
                  ev.(scarecrowCoins := SatAdd(ev.scarecrowCoins, gained)))
  }

  predicate ScarecrowsIdle(e: Env, s: Save) {
    s.pouches == [] || e.content.scarecrow.cost <= 0 || BlocksScarecrow(s) || ClockTarget(e) < 1
  }

  function ClockRate(e: Env, online: bool): int {
    if online then e.content.scarecrow.offlineSlowdown else 1
  }

  function AdvanceScarecrows(e: Env, s: Save, elapsed: int, online: bool, ev: Report): (r: (Save, Report))
    requires elapsed >= 0
    ensures r.0 == s.(draws := r.0.draws, pouches := r.0.pouches, scarecrowClock := r.0.scarecrowClock)
    ensures |r.0.pouches| == |s.pouches|
  {
    if ScarecrowsIdle(e, s) then (s, ev)
    else
      var clock := SatAdd(Max(s.scarecrowClock, 0), SatMul(elapsed, ClockRate(e, online)));
      var drops := clock / ClockTarget(e);
      var t := s.(scarecrowClock := clock % ClockTarget(e));
      if drops <= 0 then (t, ev) else FillPouches(e, t, 0, drops, ev)
  }

  // ---- One plot ----

  function CritterCount(plots: seq<Plot>): nat {
    if plots == [] then 0 else (if plots[0].critter != "" then 1 else 0) + CritterCount(plots[1..])
  }

  function MaybeCritter(e: Env, s: Save, i: nat, ev: Report): (r: (Save, Report))
    requires i < |s.plots|
    ensures |r.0.plots| == |s.plots| && Aside(s, r.0)
  {
    var cr := e.content.critters;
    if !s.crittersEnabled || s.plots[i].critter != "" || cr.kinds == [] || cr.visitChancePct <= 0 then (s, ev)
    else if cr.maxActive > 0 && CritterCount(s.plots) >= cr.maxActive then (s, ev)
    else
      var (roll, t) := Roll(e, s, 100);
      if roll >= cr.visitChancePct then (t, ev)
      else
        var (k, v) := RollRange(e, t, 0, |cr.kinds| - 1);
        (v.(plots := v.plots[i := v.plots[i].(critter := cr.kinds[k])]),
         ev.(critterVisits := ev.critterVisits + [cr.kinds[k]]))
  }

  datatype Yield = Yield(payout: int, discovery: int, failed: bool, golden: bool)

  function SalvageBase(s: Save, crop: C.Crop): nat {
    crop.sellValue * SalvageNumerator(Level(s.seedUpgrades, crop.id)) / 8
  }

  // The golden product is a plain int64 product.
  function GoldenPayout(e: Env, payout: int): int {
    Quo(I64(payout * e.content.golden.multiplier), 10)
  }

  function RollFailure(e: Env, s: Save, crop: C.Crop): (r: (bool, Save))
    ensures r.1 == s.(draws := r.1.draws)
  {
    if !crop.archetype.Risky? then (false, s)
    else var (roll, t) := Roll(e, s, 100); (roll < crop.failChancePct, t)
  }

  function RollGolden(e: Env, s: Save): (r: (bool, Save))
    ensures r.1 == s.(draws := r.1.draws)
  {
    if e.content.golden.chancePct <= 0 then (false, s)
    else var (roll, t) := Roll(e, s, 100); (roll < e.content.golden.chancePct, t)
  }

  function RollDiscovery(e: Env, s: Save): (r: (int, Save))
    ensures r.1 == s.(draws := r.1.draws)
  {
    var f := e.content.flavor;
    if !f.enabled || !s.flavorEnabled || f.chancePct <= 0 then (0, s)
    else
      var (roll, t) := Roll(e, s, 100);
      if roll < f.chancePct then RollRange(e, t, f.min, f.max) else (0, t)
  }

  function HarvestPayout(e: Env, s: Save, crop: C.Crop, now: int): (r: (Yield, Save))
    ensures r.1 == s.(draws := r.1.draws)
  {
    var (failed, s1) := RollFailure(e, s, crop);
    var plain := SellMultiplied(e, s, if failed then SalvageBase(s, crop) else crop.sellValue, crop.id, now);
    var (golden, s2) := RollGolden(e, s1);
    var (discovery, s3) := RollDiscovery(e, s2);
    (Yield(if golden then GoldenPayout(e, plain) else plain, discovery, failed, golden), s3)
  }

  function ExpectedBase(s: Save, crop: C.Crop): nat {
    (crop.failChancePct * SalvageBase(s, crop) + (100 - crop.failChancePct) * crop.sellValue) / 100
  }

  function ExpectedPayout(e: Env, s: Save, crop: C.Crop, now: int): nat {
    SellMultiplied(e, s, if crop.archetype.Risky? then ExpectedBase(s, crop) else crop.sellValue, crop.id, now)
  }

  // What the plot will sow next.
  function SowCrop(e: Env, plot: Plot, crop: C.Crop): C.Crop {
    var next := if plot.autoSowCrop != "" then plot.autoSowCrop else plot.crop;
    if next == crop.id then crop
    else match C.CropIn(e.content.crops, next) case Some(c) => c case None => crop
  }

  // The credits of one automatic harvest, and what the report says of it.
  function Reap(e: Env, s: Save, crop: C.Crop, matureAt: int, ev: Report): (r: (Save, Report))
    ensures r.0.plots == s.plots && Aside(s, r.0)
  {
    var (y, s1) := HarvestPayout(e, s, crop, matureAt);
    var s2 := Credit(Credit(s1, y.payout), y.discovery);
    (s2.(lifetimeHarvests := SatAdd(s2.lifetimeHarvests, 1)),
     ev.(autoCoins := SatAdd(ev.autoCoins, y.payout),
         failed := if y.failed then Bump(ev.failed, crop.id, 1) else ev.failed,
         golden := ev.golden + (if y.golden then 1 else 0),
         discoveries := ev.discoveries + (if y.discovery > 0 then 1 else 0),
         discoveryCoins := ev.discoveryCoins + (if y.discovery > 0 then y.discovery else 0),
         autoHarvested := Bump(ev.autoHarvested, crop.id, 1)))
  }

  function Resown(plot: Plot, sow: C.Crop, crop: C.Crop, at: int): Plot {
    plot.(crop := if sow.id != crop.id then sow.id else plot.crop, plantedAt := at)
  }

  // Replanting, if the plot can; the third part is the crop now growing, None when the
  // plot was left empty.
  function Replant(e: Env, s: Save, i: nat, crop: C.Crop, matureAt: int, to: int, ev: Report)
    : (r: (Save, Report, Option<C.Crop>))
    requires i < |s.plots|
    ensures |r.0.plots| == |s.plots| && Aside(s, r.0)
  {
    var plot := s.plots[i];
    var sow := SowCrop(e, plot, crop);
    var cost := SeedCost(e, s, sow);
    if plot.autoSow && s.coins >= cost && Unlocked(s, sow.unlock) && SeasonalPlantable(e, sow.unlock, to) then
      (Pay(s, cost).(plots := s.plots[i := Resown(plot, sow, crop, matureAt)]),
       ev.(autoCoins := ev.autoCoins - cost),
       Some(if sow.id != crop.id then sow else crop))
    else (s.(plots := s.plots[i := plot.(crop := "", plantedAt := 0)]), ev, None)
  }

  function HarvestOnce(e: Env, s: Save, i: nat, crop: C.Crop, matureAt: int, to: int, ev: Report)
    : (r: (Save, Report, Option<C.Crop>))
    requires i < |s.plots|
    ensures |r.0.plots| == |s.plots| && Aside(s, r.0)
  {
    var (t, ev') := Reap(e, s, crop, matureAt, ev);
    Replant(e, t, i, crop, matureAt, to, ev')
  }

  predicate CanBatch(e: Env, s: Save, i: nat, crop: C.Crop, matureAt: int, to: int)
    requires i < |s.plots|
  {
    s.plots[i].autoSow && s.coins >= SeedCost(e, s, crop) && SeasonalPlantable(e, crop.unlock, to) &&
    ExpectedPayout(e, s, crop, matureAt) > SeedCost(e, s, crop)
  }

  // All harvests still due at once, at the expected payout.
  function Batch(e: Env, s: Save, i: nat, crop: C.Crop, grow: C.pos, matureAt: int, to: int, ev: Report)
    : (r: (Save, Report))
    requires i < |s.plots| && matureAt <= to
    ensures |r.0.plots| == |s.plots| && Aside(s, r.0)
  {
    var remaining := (to - matureAt) / grow;
    var n := remaining + 1;
    var gross := SatMul(ExpectedPayout(e, s, crop, matureAt), n);
    var seeds := SatMul(SeedCost(e, s, crop), n);
    var t := Credit(s, gross);
    var paid := if seeds > t.coins then t.coins else seeds;
    var v := Pay(t, paid);
    (v.(lifetimeHarvests := SatAdd(v.lifetimeHarvests, n),
        plots := v.plots[i := v.plots[i].(plantedAt := matureAt + remaining * grow)]),
     ev.(autoCoins := SatAdd(ev.autoCoins, gross - paid), autoHarvested := Bump(ev.autoHarvested, crop.id, n)))
  }

  // The plot's loop: `cycles` replantings so far.
  function Cycles(e: Env, s: Save, i: nat, crop: C.Crop, grow: C.pos, matureAt: int, cycles: nat, to: int, ev: Report)
    : (r: (Save, Report))
    requires i < |s.plots|
    ensures |r.0.plots| == |s.plots| && Aside(s, r.0)
    decreases Max(to - matureAt + 1, 0)
  {
    if matureAt > to then (s, ev)
    else if cycles >= AUTO_CYCLE_CAP then
      if CanBatch(e, s, i, crop, matureAt, to) then Batch(e, s, i, crop, grow, matureAt, to, ev) else (s, ev)
    else
      var (t, ev', next) := HarvestOnce(e, s, i, crop, matureAt, to, ev);
      match next
      case None => (t, ev')
      case Some(sown) =>
        var g := if sown.id != crop.id then GrowSeconds(e, t, sown) else grow;
        Cycles(e, t, i, sown, g, matureAt + g, cycles + 1, to, ev')
  }

  function SettlePlot(e: Env, s: Save, i: nat, from: int, to: int, online: bool, ev: Report): (r: (Save, Report))
    requires i < |s.plots|
    ensures |r.0.plots| == |s.plots| && Aside(s, r.0)
  {
    var plot := s.plots[i];
    if plot.crop == "" then if online then MaybeCritter(e, s, i, ev) else (s, ev)
    else
      match C.CropIn(e.content.crops, plot.crop)
      case None => (s, ev)
      case Some(crop) =>
        var grow := GrowSeconds(e, s, crop);
        var matureAt := plot.plantedAt + grow;
        if !plot.autoHarvest || BlocksAutomation(s) then
          (s, if from < matureAt <= to then ev.(matured := Bump(ev.matured, crop.id, 1)) else ev)
        else Cycles(e, s, i, crop, grow, matureAt, 0, to, ev)
  }

  function SettlePlots(e: Env, s: Save, i: nat, from: int, to: int, online: bool, ev: Report): (r: (Save, Report))
    ensures |r.0.plots| == |s.plots| && Aside(s, r.0)
    decreases |s.plots| - i
  {
    if i >= |s.plots| then (s, ev)
    else
      var (t, ev') := SettlePlot(e, s, i, from, to, online, ev);
      SettlePlots(e, t, i + 1, from, to, online, ev')
  }

  // ---- Achievements ----

  predicate Met(s: Save, a: C.Achievement) {
    match a.kind
    case Harvests => s.lifetimeHarvests >= a.value
    case EarningsReach => s.lifetimeEarnings >= a.value
    case PlotsOwned => |s.plots| >= a.value
    case RebirthsDone => s.rebirths >= a.value
    case Balance => s.coins >= a.value
  }

  function CheckAchievements(s: Save, items: seq<C.Achievement>, now: int): (r: (Save, seq<string>))
    ensures r.0 == s.(achievements := r.0.achievements)
    decreases |items|
  {
    if items == [] then (s, [])
    else if items[0].id in s.achievements || !Met(s, items[0]) then CheckAchievements(s, items[1..], now)
    else
      var (t, newly) := CheckAchievements(s.(achievements := s.achievements[items[0].id := now]), items[1..], now);
      (t, [items[0].id] + newly)
  }

  // ---- Advance ----

  // Events end and begin and parcels arrive before anything else.
  function Arrivals(e: Env, s: Save, to: int): (Save, Report)
    requires to > s.updatedAt
  {
    var elapsed := to - s.updatedAt;
    var online := elapsed <= ONLINE_THRESHOLD;
    var ev := NoReport.(elapsed := elapsed);
    var s1 := if BlocksEvents(s) && s.eventId != "" then ClearEvent(s) else s;
    var over := s1.eventId != "" && to >= s1.eventEndsAt;
    var ev2 := if over then ev.(eventEnded := s1.eventId) else ev;
    var s2 := if over then ClearEvent(s1) else s1;
    var (s3, ev3) := if online && !BlocksEvents(s2) then RollEvent(e, s2, elapsed, to, ev2) else (s2, ev2);
    if !BlocksGifts(s3) then RollGift(e, s3, elapsed, online, to, ev3) else (s3, ev3)
  }

  // Everything before the plots.
  function Prelude(e: Env, s: Save, to: int): (Save, Report)
    requires to > s.updatedAt
  {
    var (t, ev) := Arrivals(e, s, to);
    var elapsed := to - s.updatedAt;
    AdvanceScarecrows(e, t, elapsed, elapsed <= ONLINE_THRESHOLD, ev)
  }

  function Advance(e: Env, s: Save, to: int): (r: (Save, Report))
    ensures to <= s.updatedAt ==> r == (s, NoReport)
  {
    if to <= s.updatedAt then (s, NoReport)
    else
      var online := to - s.updatedAt <= ONLINE_THRESHOLD;
      var (s1, ev1) := Prelude(e, s, to);
      var (s2, ev2) := SettlePlots(e, s1, 0, s.updatedAt, to, online, ev1);
      var (s3, newly) := CheckAchievements(s2.(updatedAt := to), e.content.achievements, to);
      (s3, ev2.(achievements := newly,
                contractCompleted := if s3.contractsCompleted > s.contractsCompleted then s.activeContract else NoContract))
  }
}
