// The game content as loading validates it: bounds that the validator checks on single
// fields are types here.
module Content {
  import opened Common
  import opened Money

  type coins = x: int | 0 <= x <= MAX witness 0
  type price = x: int | 1 <= x <= MAX witness 1
  type pos = x: int | 1 <= x witness 1
  type growth = x: int | 100 <= x witness 100
  type percent = x: int | 0 <= x <= 100 witness 0
  type tenths = x: int | 10 <= x witness 10

  datatype UnlockKind = FromStart | Earnings | Prestige | InZone | InSeason

  datatype Unlock = Unlock(kind: UnlockKind, value: int, zone: string, season: string, rebirths: nat)

  datatype Archetype = Fast | Slow | Risky

  datatype Crop = Crop(id: string, archetype: Archetype, seedCost: nat, growSeconds: pos, sellValue: nat,
                       failChancePct: percent, unlock: Unlock)

  datatype Effect =
    | GrowSpeed | SellBonus | StartCoins | PlotDiscount | GiftRate | EventRate | EventDuration | SeedDiscount

  // A permanent upgrade or a run-scoped multiplier.
  datatype Bonus = Bonus(id: string, cost: price, growthPct: growth, maxLevel: pos, effect: Effect, value: pos)

  datatype SeedUpgrade = SeedUpgrade(id: string, cropId: string, cost: price, growthPct: growth, maxLevel: pos)

  datatype Zone = Zone(id: string, cost: nat, extraPlots: pos, unlock: Unlock)

  datatype Event = Event(id: string, effect: Effect, value: pos)

  datatype EventsConfig = EventsConfig(minIntervalSec: pos, maxIntervalSec: pos, minDurationSec: pos, maxDurationSec: pos)

  datatype ConditionKind = Harvests | EarningsReach | PlotsOwned | RebirthsDone | Balance

  datatype Achievement = Achievement(id: string, kind: ConditionKind, value: pos)

  datatype Start = Start(coins: coins, plots: pos)

  datatype Land = Land(basePlotCost: price, growthPct: growth, maxPlots: int)

  datatype PrestigeConfig = PrestigeConfig(divisor: pos, minEarnings: pos)

  datatype Automation = Automation(harvestBaseCost: price, harvestGrowthPct: growth, sowCost: pos, sowMinEarnings: pos)

  datatype Gifts = Gifts(onlineIntervalSec: pos, offlineIntervalSec: pos, starseedChancePct: percent,
                         coinFloor: int, coinCeiling: int)

  datatype Golden = Golden(chancePct: percent, multiplier: tenths)

  // The validator leaves the moon's bonus alone; a negative one is not modelled.
  datatype Moon = Moon(bonusPct: nat, cropId: string)

  datatype Critters = Critters(visitChancePct: int, maxActive: nat, shooMin: int, shooMax: int,
                               rebirthBonusPct: nat, kinds: seq<string>)

  // cost 0 disables the item.
  datatype ScarecrowFields = ScarecrowFields(cost: nat, growthPct: growth, maxCount: pos, dropIntervalSec: pos,
                                             offlineSlowdown: pos, coinsMin: pos, coinsMax: pos,
                                             synergyPct: nat, rebirthBonusPct: nat, unlockRebirths: seq<nat>)

  type Scarecrow = s: ScarecrowFields | s.coinsMin <= s.coinsMax
    witness ScarecrowFields(0, 100, 1, 1, 1, 1, 1, 0, 0, [])

  datatype Flavor = Flavor(enabled: bool, chancePct: percent, min: nat, max: nat)

  datatype Content = Content(
    crops: seq<Crop>, upgrades: seq<Bonus>, multipliers: seq<Bonus>, seedUpgrades: seq<SeedUpgrade>,
    zones: seq<Zone>, events: seq<Event>, eventsConfig: EventsConfig, achievements: seq<Achievement>,
    start: Start, land: Land, prestige: PrestigeConfig, automation: Automation, gifts: Gifts,
    golden: Golden, moon: Moon, critters: Critters, scarecrow: Scarecrow, flavor: Flavor)

  function CropIn(crops: seq<Crop>, id: string): (r: Option<Crop>)
    ensures r.Some? ==> r.value in crops && r.value.id == id
  {
    if crops == [] then None else if crops[0].id == id then Some(crops[0]) else CropIn(crops[1..], id)
  }

  function BonusIn(items: seq<Bonus>, id: string): (r: Option<Bonus>)
    ensures r.Some? ==> r.value in items && r.value.id == id
  {
    if items == [] then None else if items[0].id == id then Some(items[0]) else BonusIn(items[1..], id)
  }

  function SeedUpgradeIn(items: seq<SeedUpgrade>, id: string): (r: Option<SeedUpgrade>)
    ensures r.Some? ==> r.value in items && r.value.id == id
  {
    if items == [] then None else if items[0].id == id then Some(items[0]) else SeedUpgradeIn(items[1..], id)
  }

  function ZoneIn(zones: seq<Zone>, id: string): (r: Option<Zone>)
    ensures r.Some? ==> r.value in zones && r.value.id == id
  {
    if zones == [] then None else if zones[0].id == id then Some(zones[0]) else ZoneIn(zones[1..], id)
  }

  function EventIn(events: seq<Event>, id: string): (r: Option<Event>)
    ensures r.Some? ==> r.value in events && r.value.id == id
  {
    if events == [] then None else if events[0].id == id then Some(events[0]) else EventIn(events[1..], id)
  }

  // Progression rebirths needed to buy the next scarecrow.
  function RebirthsToBuy(sc: Scarecrow, owned: nat): nat {
    if owned >= |sc.unlockRebirths| then 0 else sc.unlockRebirths[owned]
  }

  // ---- What loading checks across fields ----

  predicate UnlockOk(c: Content, u: Unlock) {
    && (u.rebirths > 0 ==> !u.kind.Prestige? && !u.kind.InSeason?)
    && (u.kind.Earnings? || u.kind.Prestige? ==> u.value >= 1)
    && (u.kind.InZone? ==> ZoneIn(c.zones, u.zone).Some?)
    && (u.kind.InSeason? ==> (u.season == "halloween" || u.season == "christmas") && u.value == 0 && u.zone == "")
  }

  predicate CropsOk(c: Content) {
    && (forall i :: 0 <= i < |c.crops| ==>
          && c.crops[i].id != "" && UnlockOk(c, c.crops[i].unlock)
          && (if c.crops[i].archetype.Risky? then 1 <= c.crops[i].failChancePct <= 99 else c.crops[i].failChancePct == 0))
    && (forall i, j :: 0 <= i < j < |c.crops| ==> c.crops[i].id != c.crops[j].id)
    && (exists i :: 0 <= i < |c.crops| && c.crops[i].archetype.Fast?)
    && (exists i :: 0 <= i < |c.crops| && c.crops[i].archetype.Slow?)
    && (exists i :: 0 <= i < |c.crops| && c.crops[i].archetype.Risky?)
  }

  predicate ZonesOk(c: Content) {
    && (forall i :: 0 <= i < |c.zones| ==>
          && c.zones[i].id != "" && UnlockOk(c, c.zones[i].unlock)
          && !(c.zones[i].unlock.kind.InZone? && c.zones[i].unlock.zone == c.zones[i].id))
    && (forall i, j :: 0 <= i < j < |c.zones| ==> c.zones[i].id != c.zones[j].id)
  }

  predicate BonusesOk(items: seq<Bonus>, effects: set<Effect>, capped: set<Effect>) {
    && (forall i :: 0 <= i < |items| ==>
          && items[i].id != "" && items[i].effect in effects
          && (items[i].effect in capped ==> items[i].value * items[i].maxLevel < 100))
    && (forall i, j :: 0 <= i < j < |items| ==> items[i].id != items[j].id)
  }

  predicate StrainsOk(c: Content) {
    && (forall i :: 0 <= i < |c.seedUpgrades| ==>
          && c.seedUpgrades[i].id != "" && c.seedUpgrades[i].maxLevel == 3
          && CropIn(c.crops, c.seedUpgrades[i].cropId).Some?
          && CropIn(c.crops, c.seedUpgrades[i].cropId).value.archetype.Risky?)
    && (forall i, j :: 0 <= i < j < |c.seedUpgrades| ==> c.seedUpgrades[i].id != c.seedUpgrades[j].id)
  }

  predicate EventsOk(c: Content) {
    && (forall i :: 0 <= i < |c.events| ==> c.events[i].id != "" && c.events[i].effect in {SeedDiscount, SellBonus, GrowSpeed})
    && (forall i, j :: 0 <= i < j < |c.events| ==> c.events[i].id != c.events[j].id)
    && c.eventsConfig.minIntervalSec <= c.eventsConfig.maxIntervalSec
    && c.eventsConfig.minDurationSec <= c.eventsConfig.maxDurationSec
  }

  predicate ScarecrowOk(sc: Scarecrow) {
    sc.cost > 0 ==>
      && (sc.unlockRebirths == [] || |sc.unlockRebirths| == sc.maxCount)
      && (forall i, j :: 0 <= i < j < |sc.unlockRebirths| ==> sc.unlockRebirths[i] <= sc.unlockRebirths[j])
  }

  // Content the server would load, with the checks on single fields left to the types.
  predicate Validated(c: Content) {
    && c.land.maxPlots >= c.start.plots && CropsOk(c) && ZonesOk(c) && StrainsOk(c) && EventsOk(c) && ScarecrowOk(c.scarecrow)
    && BonusesOk(c.upgrades, {GrowSpeed, SellBonus, StartCoins, PlotDiscount, GiftRate, EventRate, EventDuration},
                 {GrowSpeed, PlotDiscount})
    && BonusesOk(c.multipliers, {GrowSpeed, SellBonus}, {GrowSpeed})
    && (forall i, j :: 0 <= i < j < |c.achievements| ==> c.achievements[i].id != c.achievements[j].id)
    && (c.flavor.enabled ==> c.flavor.min <= c.flavor.max)
  }
}
