// The save's value and everything the engine derives from it without changing it.
module FarmState {
  import opened Common
  import opened Money
  import C = Content
  import Id = Identity

  datatype Plot = Plot(crop: string, plantedAt: int, autoHarvest: bool, autoSow: bool, autoSowCrop: string,
                       critter: string, lastCrop: string)

  const EmptyPlot := Plot("", 0, false, false, "", "", "")

  datatype ContractId = NoContract | BareHands | LeanSeason | ClockworkDenied

  datatype NameStyle = Traditional | Leaf | Gold | Sky | Rose | Violet | PurpleWave | UnknownStyle

  type Levels = map<string, nat>

  // A history variable, not part of the save: the wallet the run began with, every coin
  // credited and every coin paid since, all unbounded.
  datatype Books = Books(start: int, earned: int, spent: int)

  datatype Save = Save(
    // The generator's seed and how many values it has given.
    seed: nat, draws: nat,
    updatedAt: int,
    coins: int, plots: seq<Plot>, purchasedPlots: nat, zones: set<string>, runEarnings: int,
    multipliers: Levels, seedUpgrades: Levels, pouches: seq<int>, scarecrowClock: int,
    giftPending: bool, giftArrivedAt: int, eventId: string, eventStartedAt: int, eventEndsAt: int,
    starseeds: int, upgrades: Levels, achievements: map<string, int>, rebirths: int,
    lifetimeEarnings: int, lifetimeHarvests: int,
    flavorEnabled: bool, crittersEnabled: bool, farmName: string, lastCrop: string,
    contractsUnlocked: bool, contractsCompleted: int, activeContract: ContractId,
    contractRebirths: int, contractEarnings: int, contractStarseeds: int, nameStyle: NameStyle,
    books: Books)

  // What the engine is given: content, the festival calendar, the raw values each seed's
  // generator yields, and character classes.
  datatype Env = Env(content: C.Content, season: int -> string, dice: (nat, nat) -> nat, unicode: Id.Unicode)

  const CONTRACTS: nat := 3

  function Definition(n: int): ContractId {
    if n == 0 then BareHands else if n == 1 then LeanSeason else if n == 2 then ClockworkDenied else NoContract
  }

  function New(e: Env, seed: nat, now: int): Save {
    Save(seed, 0, now, e.content.start.coins, seq(e.content.start.plots, i => EmptyPlot), 0, {}, 0,
         map[], map[], [], 0, false, 0, "", 0, 0, 0, map[], map[], 0, 0, 0, true, true, "", "",
         false, 0, NoContract, 0, 0, 0, Traditional, Books(e.content.start.coins, 0, 0))
  }

  function Level(levels: Levels, id: string): nat {
    if id in levels then levels[id] else 0
  }

  // ---- Contracts ----

  function ProgressionRebirths(s: Save): int {
    if s.activeContract != NoContract then s.contractRebirths else s.rebirths
  }

  predicate BlocksAutomation(s: Save) { s.activeContract.BareHands? || s.activeContract.ClockworkDenied? }

  predicate BlocksEvents(s: Save) { s.activeContract.ClockworkDenied? }

  predicate BlocksGifts(s: Save) { s.activeContract.ClockworkDenied? }

  predicate BlocksScarecrow(s: Save) { s.activeContract.ClockworkDenied? }

  predicate CapsLand(s: Save) { s.activeContract.LeanSeason? }

  const LEAN_PLOTS: nat := 6

  // ---- Sums and gates ----

  function EffectSum(items: seq<C.Bonus>, levels: Levels, effect: C.Effect): nat {
    if items == [] then 0
    else (if items[0].effect == effect then items[0].value * Level(levels, items[0].id) else 0)
         + EffectSum(items[1..], levels, effect)
  }

  predicate Unlocked(s: Save, u: C.Unlock) {
    (u.rebirths > 0 ==> ProgressionRebirths(s) >= u.rebirths) &&
    match u.kind
    case FromStart => true
    case InSeason => true
    case Earnings => s.lifetimeEarnings >= u.value
    case Prestige => ProgressionRebirths(s) >= u.value
    case InZone => u.zone in s.zones
  }

  predicate SeasonalPlantable(e: Env, u: C.Unlock, now: int) {
    u.kind.InSeason? ==> e.season(now) == u.season
  }

  function ActiveEvent(e: Env, s: Save): Option<C.Event> {
    if s.eventId == "" || BlocksEvents(s) then None else C.EventIn(e.content.events, s.eventId)
  }

  function EventBonus(e: Env, s: Save, effect: C.Effect): nat {
    match ActiveEvent(e, s)
    case Some(ev) => if ev.effect == effect then ev.value else 0
    case None => 0
  }

  function SeedCost(e: Env, s: Save, crop: C.Crop): nat {
    var discount := EventBonus(e, s, C.SeedDiscount);
    if discount == 0 then crop.seedCost
    else
      var d := if discount >= 100 then 99 else discount;
      crop.seedCost * (100 - d) / 100
  }

  function GrowSeconds(e: Env, s: Save, crop: C.Crop): C.pos {
    var cut := EffectSum(e.content.upgrades, s.upgrades, C.GrowSpeed)
               + EffectSum(e.content.multipliers, s.multipliers, C.GrowSpeed)
               + EventBonus(e, s, C.GrowSpeed);
    var reduction := if cut >= 100 then 99 else cut;
    var g := crop.growSeconds * (100 - reduction) / 100;
    if g < 1 then 1 else g
  }

  // The in-game minute of day; the source folds its remainder twice to get this one.
  function MinuteOfDay(now: int): int {
    (now % 1440 + 360) % 1440
  }

  predicate MoonberryHour(e: Env, cropId: string, now: int) {
    cropId == e.content.moon.cropId && (MinuteOfDay(now) >= 1200 || MinuteOfDay(now) < 240)
  }

  function SellBonusPct(e: Env, s: Save, cropId: string, now: int): nat {
    EffectSum(e.content.upgrades, s.upgrades, C.SellBonus)
    + EffectSum(e.content.multipliers, s.multipliers, C.SellBonus)
    + EventBonus(e, s, C.SellBonus)
    + (if MoonberryHour(e, cropId, now) then e.content.moon.bonusPct else 0)
  }

  function SellMultiplied(e: Env, s: Save, base: nat, cropId: string, now: int): nat {
    var bonus := SellBonusPct(e, s, cropId, now);
    if bonus == 0 then base
    else if base > MAX / (100 + bonus) then MAX
    else base * (100 + bonus) / 100
  }

  function SalvageNumerator(level: nat): nat {
    if level == 0 then 1 else if level == 1 then 2 else if level == 2 then 4 else 6
  }

  function CheapestUnlocked(s: Save, crops: seq<C.Crop>, best: Option<C.Crop>): Option<C.Crop> {
    if crops == [] then best
    else if Unlocked(s, crops[0].unlock) && (best.None? || crops[0].seedCost < best.value.seedCost)
    then CheapestUnlocked(s, crops[1..], Some(crops[0]))
    else CheapestUnlocked(s, crops[1..], best)
  }

  predicate AllPlotsEmpty(s: Save) {
    forall i :: 0 <= i < |s.plots| ==> s.plots[i].crop == ""
  }

  predicate MercyPlantEligible(e: Env, s: Save, cropId: string) {
    AllPlotsEmpty(s) &&
    var cheapest := CheapestUnlocked(s, e.content.crops, None);
    cheapest.Some? && cheapest.value.id == cropId && s.coins < SeedCost(e, s, cheapest.value)
  }

  function StartCoins(items: seq<C.Bonus>, upgrades: Levels, coins: int): int {
    if items == [] then coins
    else
      StartCoins(items[1..], upgrades,
                 if items[0].effect == C.StartCoins then SatAdd(coins, items[0].value * Level(upgrades, items[0].id))
                 else coins)
  }

  // ---- Prices ----

  // So many hundredths of a price: a plain int64 product.
  function Discounted(cost: int, keep: int): int {
    Quo(I64(cost * keep), 100)
  }

  function NextPlotCost(e: Env, s: Save): Option<int> {
    if CapsLand(s) && |s.plots| >= LEAN_PLOTS then None
    else if e.content.start.plots + s.purchasedPlots >= e.content.land.maxPlots then None
    else
      var cost := LadderPrice(e.content.land.basePlotCost, e.content.land.growthPct, s.purchasedPlots);
      var off := EffectSum(e.content.upgrades, s.upgrades, C.PlotDiscount);
      var discounted := Discounted(cost, 100 - (if off >= 100 then 99 else off));
      Some(if discounted < 1 then 1 else discounted)
  }

  function AutoHarvestCount(plots: seq<Plot>): nat {
    if plots == [] then 0 else (if plots[0].autoHarvest then 1 else 0) + AutoHarvestCount(plots[1..])
  }

  function PlotAutoHarvestCost(e: Env, s: Save): int {
    var cost := LadderPrice(e.content.automation.harvestBaseCost, e.content.automation.harvestGrowthPct,
                            AutoHarvestCount(s.plots));
    if cost < 1 then 1 else cost
  }

  function LevelCost(cost: C.price, growthPct: C.growth, maxLevel: C.pos, level: nat): Option<int> {
    if level >= maxLevel then None else Some(LadderPrice(cost, growthPct, level))
  }

  function ScarecrowCost(e: Env, s: Save): Option<int> {
    var sc := e.content.scarecrow;
    if sc.cost <= 0 || |s.pouches| >= sc.maxCount then None
    else Some(SaturatingPrice(sc.cost, sc.growthPct, |s.pouches|))
  }

  // ---- Rebirth ----

  function PouchTotal(pouches: seq<int>, total: int): int {
    if pouches == [] then total else PouchTotal(pouches[1..], SatAdd(total, pouches[0]))
  }

  function RebirthEarnings(s: Save): int {
    SatAdd(s.runEarnings, PouchTotal(s.pouches, 0))
  }

  function PrestigeGain(e: Env, s: Save): nat {
    FloorSqrt(Quo(RebirthEarnings(s), e.content.prestige.divisor))
  }

  predicate CanRebirth(e: Env, s: Save) {
    RebirthEarnings(s) >= e.content.prestige.minEarnings && PrestigeGain(e, s) >= 1
  }

  predicate BaseGameComplete(e: Env, s: Save) {
    && (forall i :: 0 <= i < |e.content.upgrades| ==>
          Level(s.upgrades, e.content.upgrades[i].id) >= e.content.upgrades[i].maxLevel)
    && (forall i :: 0 <= i < |e.content.crops| ==>
          var u := e.content.crops[i].unlock;
          && s.rebirths >= u.rebirths
          && (u.kind.Earnings? ==> s.lifetimeEarnings >= u.value)
          && (u.kind.Prestige? ==> s.rebirths >= u.value))
  }

  predicate ContractsAvailable(e: Env, s: Save) {
    s.contractsUnlocked || s.contractsCompleted > 0 || s.activeContract != NoContract || BaseGameComplete(e, s)
  }

  // ---- Rolls ----

  // A value in [0, n) and the save with one more draw taken.
  function Roll(e: Env, s: Save, n: nat): (nat, Save)
    requires n > 0
  {
    (e.dice(s.seed, s.draws) % n, s.(draws := s.draws + 1))
  }

  // A value in [lo, hi]; nothing is drawn when the range is a point or empty.
  function RollRange(e: Env, s: Save, lo: int, hi: int): (r: (int, Save))
    ensures lo <= r.0 && (lo <= hi ==> r.0 <= hi) && r.1 == s.(draws := r.1.draws)
  {
    if hi <= lo then (lo, s)
    else
      var (k, s') := Roll(e, s, hi - lo + 1);
      (lo + k, s')
  }

  // ---- Crediting ----

  function Complete(s: Save): bool {
    match s.activeContract
    case BareHands => s.contractEarnings >= 100_000
    case LeanSeason => s.contractStarseeds >= 100
    case ClockworkDenied => s.contractRebirths >= 5
    case NoContract => false
  }

  function CheckCompletion(s: Save): (r: Save)
    ensures Untouched(s, r) && r.coins == s.coins
  {
    if !Complete(s) then s
    else
      s.(contractsCompleted := if s.contractsCompleted + 1 > CONTRACTS then CONTRACTS else s.contractsCompleted + 1,
         activeContract := NoContract, contractRebirths := 0, contractEarnings := 0, contractStarseeds := 0)
  }

  // What neither crediting nor working the plots touches.
  predicate Aside(s: Save, r: Save) {
    && r.updatedAt == s.updatedAt && r.pouches == s.pouches && r.scarecrowClock == s.scarecrowClock
    && r.eventId == s.eventId && r.eventStartedAt == s.eventStartedAt && r.eventEndsAt == s.eventEndsAt
    && r.giftPending == s.giftPending && r.giftArrivedAt == s.giftArrivedAt
  }

  predicate Untouched(s: Save, r: Save) {
    r.plots == s.plots && r.draws == s.draws && Aside(s, r)
  }

  function Credit(s: Save, amount: int): (r: Save)
    ensures Untouched(s, r)
  {
    if amount <= 0 then s
    else
      var t := s.(coins := SatAdd(s.coins, amount), runEarnings := SatAdd(s.runEarnings, amount),
                  lifetimeEarnings := SatAdd(s.lifetimeEarnings, amount),
                  books := s.books.(earned := s.books.earned + amount));
      if s.activeContract == NoContract then t
      else CheckCompletion(t.(contractEarnings := SatAdd(s.contractEarnings, amount)))
  }

  function CreditStarseeds(s: Save, amount: int): (r: Save)
    ensures Untouched(s, r)
  {
    if amount <= 0 then s
    else
      var t := s.(starseeds := SatAdd(s.starseeds, amount));
      if s.activeContract == NoContract then t
      else CheckCompletion(t.(contractStarseeds := SatAdd(s.contractStarseeds, amount)))
  }

  function Pay(s: Save, cost: int): Save {
    s.(coins := s.coins - cost, books := s.books.(spent := s.books.spent + cost))
  }
}
