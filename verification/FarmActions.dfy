// The player's intents as functions of the save. A refusal has no save to return: the
// one before it stays.
module FarmActions {
  import opened Common
  import opened Money
  import opened FarmState
  import opened FarmAdvance
  import C = Content
  import Id = Identity

  datatype Refusal =
    | UnknownPlot | PlotOccupied | PlotEmpty | NotMature | UnknownCrop | UnknownItem | Locked | CantAfford
    | CantAffordStarseeds | Maxed | AlreadyOwned | RebirthTooSoon | NoGift | NoCritter | NoAutoSow
    | UnknownScarecrow | PouchEmpty | NameTooLong | NameEmpty
    | ContractsLocked | ContractSequence | ContractActive | NoActiveContract | ContractRestricted
    | NameStyleLocked | UnknownNameStyle

  type Outcome = Result<Save, Refusal>

  datatype Automatic = AutoHarvest | AutoSow | OtherKind

  datatype Action =
    | Plant(plot: int, crop: string)
    | Harvest(plot: int)
    | ReplantAll
    | BuyPlot
    | BuyZone(id: string)
    | BuyMultiplier(id: string)
    | BuySeedUpgrade(id: string)
    | UpgradePlotAuto(plot: int, kind: Automatic)
    | SetAutoSowCrop(plot: int, crop: string)
    | BuyUpgrade(id: string)
    | RedeemGift
    | CollectScarecrow(i: int)
    | CollectScarecrows
    | BuyScarecrow
    | ShooCritter(plot: int)
    | Rebirth
    | StartContract(contract: ContractId)
    | AbandonContract
    | SetNameStyle(style: NameStyle)
    | SetFarmName(name: string)
    | SetFlavor(on: bool)
    | SetCritters(on: bool)

  // ---- Planting ----

  function Planted(plot: Plot, crop: string, now: int): Plot {
    Plot(crop, now, plot.autoHarvest, plot.autoSow, "", "", crop)
  }

  function DoPlant(e: Env, s: Save, i: int, cropId: string, now: int): Outcome {
    if i < 0 || i >= |s.plots| then Err(UnknownPlot)
    else if s.plots[i].crop != "" then Err(PlotOccupied)
    else
      match C.CropIn(e.content.crops, cropId)
      case None => Err(UnknownCrop)
      case Some(crop) =>
        if !Unlocked(s, crop.unlock) || !SeasonalPlantable(e, crop.unlock, now) then Err(Locked)
        else
          var mercy := MercyPlantEligible(e, s, cropId);
          var cost := SeedCost(e, s, crop);
          if !mercy && s.coins < cost then Err(CantAfford)
          else
            var t := if mercy then s else Pay(s, cost);
            Ok(t.(plots := t.plots[i := Planted(t.plots[i], cropId, now)], lastCrop := cropId))
  }

  datatype Candidate = Candidate(plot: nat, crop: string, cost: nat)

  // What an empty plot would be replanted with: its own last crop, else the farm's.
  function Remembered(s: Save, plot: Plot): string {
    if plot.lastCrop != "" then plot.lastCrop else s.lastCrop
  }

  function CandidateAt(e: Env, s: Save, i: nat, now: int): Option<Candidate>
    requires i < |s.plots|
  {
    var crop := C.CropIn(e.content.crops, Remembered(s, s.plots[i]));
    if s.plots[i].crop != "" || Remembered(s, s.plots[i]) == "" || crop.None? then None
    else if !Unlocked(s, crop.value.unlock) || !SeasonalPlantable(e, crop.value.unlock, now) then None
    else Some(Candidate(i, Remembered(s, s.plots[i]), SeedCost(e, s, crop.value)))
  }

  function Candidates(e: Env, s: Save, n: nat, now: int): seq<Candidate>
    requires n <= |s.plots|
  {
    if n == 0 then []
    else
      var rest := Candidates(e, s, n - 1, now);
      match CandidateAt(e, s, n - 1, now) case None => rest case Some(c) => rest + [c]
  }

  // Stable, dearest first: later equals go behind.
  function Insert(c: Candidate, sorted: seq<Candidate>): seq<Candidate> {
    if sorted == [] then [c]
    else if sorted[|sorted| - 1].cost < c.cost then Insert(c, sorted[..|sorted| - 1]) + [sorted[|sorted| - 1]]
    else sorted + [c]
  }

  function DearestFirst(cands: seq<Candidate>): seq<Candidate> {
    if cands == [] then [] else Insert(cands[|cands| - 1], DearestFirst(cands[..|cands| - 1]))
  }

  function Sow(s: Save, c: Candidate, now: int): Save {
    if s.coins < c.cost || c.plot >= |s.plots| then s
    else
      var t := Pay(s, c.cost);
      t.(plots := t.plots[c.plot := Planted(t.plots[c.plot], c.crop, now)], lastCrop := c.crop)
  }

  function SowAll(s: Save, cands: seq<Candidate>, now: int): Save
    decreases |cands|
  {
    if cands == [] then s else SowAll(Sow(s, cands[0], now), cands[1..], now)
  }

  function DoReplantAll(e: Env, s: Save, now: int): Save {
    SowAll(s, DearestFirst(Candidates(e, s, |s.plots|, now)), now)
  }

  // ---- Harvesting ----

  function DoHarvest(e: Env, s: Save, i: int, now: int): Outcome {
    if i < 0 || i >= |s.plots| then Err(UnknownPlot)
    else if s.plots[i].crop == "" then Err(PlotEmpty)
    else
      match C.CropIn(e.content.crops, s.plots[i].crop)
      case None => Err(UnknownCrop)
      case Some(crop) =>
        if now < s.plots[i].plantedAt + GrowSeconds(e, s, crop) then Err(NotMature)
        else
          var (y, t) := HarvestPayout(e, s, crop, now);
          var v := Credit(Credit(t, y.payout), y.discovery);
          Ok(v.(lifetimeHarvests := SatAdd(v.lifetimeHarvests, 1),
                plots := v.plots[i := Plot("", 0, s.plots[i].autoHarvest, s.plots[i].autoSow, "", "", s.plots[i].crop)]))
  }

  // ---- Purchases ----

  function DoBuyPlot(e: Env, s: Save): Outcome {
    if CapsLand(s) && |s.plots| >= LEAN_PLOTS then Err(ContractRestricted)
    else
      match NextPlotCost(e, s)
      case None => Err(Maxed)
      case Some(cost) =>
        if s.coins < cost then Err(CantAfford)
        else Ok(Pay(s, cost).(purchasedPlots := s.purchasedPlots + 1, plots := s.plots + [EmptyPlot]))
  }

  function DoBuyZone(e: Env, s: Save, id: string): Outcome {
    match C.ZoneIn(e.content.zones, id)
    case None => Err(UnknownItem)
    case Some(zone) =>
      if s.activeContract.LeanSeason? && id == "greenhouse" then Err(ContractRestricted)
      else if id in s.zones then Err(AlreadyOwned)
      else if !Unlocked(s, zone.unlock) then Err(Locked)
      else if s.coins < zone.cost then Err(CantAfford)
      else Ok(Pay(s, zone.cost).(zones := s.zones + {id}, plots := s.plots + seq(zone.extraPlots, i => EmptyPlot)))
  }

  function DoBuyMultiplier(e: Env, s: Save, id: string): Outcome {
    match C.BonusIn(e.content.multipliers, id)
    case None => Err(UnknownItem)
    case Some(m) =>
      match LevelCost(m.cost, m.growthPct, m.maxLevel, Level(s.multipliers, id))
      case None => Err(Maxed)
      case Some(cost) =>
        if s.coins < cost then Err(CantAfford)
        else Ok(Pay(s, cost).(multipliers := s.multipliers[id := Level(s.multipliers, id) + 1]))
  }

  function DoBuySeedUpgrade(e: Env, s: Save, id: string): Outcome {
    match C.SeedUpgradeIn(e.content.seedUpgrades, id)
    case None => Err(UnknownItem)
    case Some(u) =>
      var crop := C.CropIn(e.content.crops, u.cropId);
      if crop.None? || !Unlocked(s, crop.value.unlock) then Err(Locked)
      else
        match LevelCost(u.cost, u.growthPct, u.maxLevel, Level(s.seedUpgrades, u.cropId))
        case None => Err(Maxed)
        case Some(cost) =>
          if s.coins < cost then Err(CantAfford)
          else Ok(Pay(s, cost).(seedUpgrades := s.seedUpgrades[u.cropId := Level(s.seedUpgrades, u.cropId) + 1]))
  }

  function DoUpgradePlotAuto(e: Env, s: Save, i: int, kind: Automatic): Outcome {
    if i < 0 || i >= |s.plots| then Err(UnknownPlot)
    else if BlocksAutomation(s) then Err(ContractRestricted)
    else
      var plot := s.plots[i];
      match kind
      case AutoHarvest =>
        if plot.autoHarvest then Err(AlreadyOwned)
        else if s.coins < PlotAutoHarvestCost(e, s) then Err(CantAfford)
        else Ok(Pay(s, PlotAutoHarvestCost(e, s)).(plots := s.plots[i := plot.(autoHarvest := true)]))
      case AutoSow =>
        if plot.autoSow then Err(AlreadyOwned)
        else if !plot.autoHarvest || s.lifetimeEarnings < e.content.automation.sowMinEarnings then Err(Locked)
        else if s.coins < e.content.automation.sowCost then Err(CantAfford)
        else Ok(Pay(s, e.content.automation.sowCost).(plots := s.plots[i := plot.(autoSow := true)]))
      case OtherKind => Err(UnknownItem)
  }

  function DoSetAutoSowCrop(e: Env, s: Save, i: int, cropId: string): Outcome {
    if i < 0 || i >= |s.plots| then Err(UnknownPlot)
    else if BlocksAutomation(s) then Err(ContractRestricted)
    else if !s.plots[i].autoSow then Err(NoAutoSow)
    else
      match C.CropIn(e.content.crops, cropId)
      case None => Err(UnknownCrop)
      case Some(crop) =>
        if !Unlocked(s, crop.unlock) then Err(Locked)
        else
          Ok(s.(plots := s.plots[i := s.plots[i].(autoSowCrop := if cropId == s.plots[i].crop then "" else cropId)]))
  }

  function DoBuyUpgrade(e: Env, s: Save, id: string): Outcome {
    match C.BonusIn(e.content.upgrades, id)
    case None => Err(UnknownItem)
    case Some(u) =>
      match LevelCost(u.cost, u.growthPct, u.maxLevel, Level(s.upgrades, id))
      case None => Err(Maxed)
      case Some(cost) =>
        if s.starseeds < cost then Err(CantAffordStarseeds)
        else Ok(s.(starseeds := s.starseeds - cost, upgrades := s.upgrades[id := Level(s.upgrades, id) + 1]))
  }

  function DoBuyScarecrow(e: Env, s: Save): Outcome {
    if BlocksScarecrow(s) then Err(ContractRestricted)
    else if e.content.scarecrow.cost <= 0 then Err(UnknownItem)
    else
      match ScarecrowCost(e, s)
      case None => Err(Maxed)
      case Some(cost) =>
        if ProgressionRebirths(s) < C.RebirthsToBuy(e.content.scarecrow, |s.pouches|) then Err(Locked)
        else if s.coins < cost then Err(CantAfford)
        else Ok(Pay(s, cost).(pouches := s.pouches + [0]))
  }

  // ---- Collecting ----

  function DoCollectScarecrow(s: Save, i: int): Outcome {
    if i < 0 || i >= |s.pouches| then Err(UnknownScarecrow)
    else if s.pouches[i] <= 0 then Err(PouchEmpty)
    else Ok(Credit(s.(pouches := s.pouches[i := 0]), s.pouches[i]))
  }

  function CollectFrom(s: Save, i: nat): (r: Save)
    ensures |r.pouches| == |s.pouches|
    decreases |s.pouches| - i
  {
    if i >= |s.pouches| then s
    else
      match DoCollectScarecrow(s, i)
      case Ok(t) => CollectFrom(t, i + 1)
      case Err(_) => CollectFrom(s, i + 1)
  }

  function DoShooCritter(e: Env, s: Save, i: int): Outcome {
    if i < 0 || i >= |s.plots| then Err(UnknownPlot)
    else if s.plots[i].critter == "" then Err(NoCritter)
    else
      var (base, t) := RollRange(e, s, e.content.critters.shooMin, e.content.critters.shooMax);
      var reward := Quo(SatMul(base, I64(100 + I64(e.content.critters.rebirthBonusPct * ProgressionRebirths(s)))), 100);
      Ok(Credit(t.(plots := s.plots[i := s.plots[i].(critter := "")]), reward))
  }

  // ---- Gifts ----

  function Clamp(x: int, lo: int, hi: int): int {
    var y := if x < lo then lo else x;
    if y > hi then hi else y
  }

  function GiftCoins(e: Env, s: Save): (r: (int, Save))
    ensures r.1 == s.(draws := r.1.draws)
  {
    var g := e.content.gifts;
    var base := Clamp(FloorSqrt(Quo(s.runEarnings, 10)) + 10 + ProgressionRebirths(s) * 50, g.coinFloor, g.coinCeiling);
    var (jitter, t) := RollRange(e, s, Quo(-base, 5), Quo(base, 5));
    (Clamp(base + jitter, g.coinFloor, g.coinCeiling), t)
  }

  function DoRedeemGift(e: Env, s: Save): Outcome {
    if BlocksGifts(s) then Err(ContractRestricted)
    else if !s.giftPending then Err(NoGift)
    else
      var t := s.(giftPending := false, giftArrivedAt := 0);
      var rebirths := ProgressionRebirths(s);
      var (roll, v) := if rebirths >= 1 then Roll(e, t, 100) else (100, t);
      if roll < e.content.gifts.starseedChancePct then
        Ok(CreditStarseeds(v, FloorSqrt(Quo(v.runEarnings, e.content.prestige.divisor)) + 1 + rebirths))
      else
        var (coins, u) := GiftCoins(e, v);
        Ok(Credit(u, coins))
  }

  // ---- Rebirth and contracts ----

  function FreshPlots(e: Env): seq<Plot> {
    seq(e.content.start.plots, i => EmptyPlot)
  }

  // The run reset, before its contract is checked.
  function Reborn(e: Env, t: Save, gain: nat, wallet: int, now: int): Save {
    var active := t.activeContract != NoContract;
    t.(starseeds := SatAdd(t.starseeds, gain),
       contractStarseeds := if active then SatAdd(t.contractStarseeds, gain) else t.contractStarseeds,
       contractRebirths := if active then SatAdd(t.contractRebirths, 1) else t.contractRebirths,
       rebirths := t.rebirths + 1,
       coins := wallet, books := Books(wallet, 0, 0),
       plots := FreshPlots(e), purchasedPlots := 0, zones := {}, multipliers := map[], seedUpgrades := map[],
       pouches := [], scarecrowClock := 0, runEarnings := 0,
       eventId := "", eventStartedAt := 0, eventEndsAt := 0, updatedAt := now)
  }

  function DoRebirth(e: Env, s: Save, now: int): Outcome {
    if !CanRebirth(e, s) then Err(RebirthTooSoon)
    else
      var t := CollectFrom(s, 0);
      Ok(CheckCompletion(Reborn(e, t, PrestigeGain(e, t),
                                StartCoins(e.content.upgrades, t.upgrades, e.content.start.coins), now)))
  }

  function ResetGameplay(e: Env, s: Save, now: int): Save {
    s.(coins := e.content.start.coins, books := Books(e.content.start.coins, 0, 0),
       plots := FreshPlots(e), purchasedPlots := 0, zones := {}, runEarnings := 0,
       multipliers := map[], seedUpgrades := map[], pouches := [], scarecrowClock := 0,
       giftPending := false, giftArrivedAt := 0, eventId := "", eventStartedAt := 0, eventEndsAt := 0,
       starseeds := 0, upgrades := map[], lastCrop := "",
       contractRebirths := 0, contractEarnings := 0, contractStarseeds := 0, updatedAt := now)
  }

  // The only contract that may start next.
  function NextContract(s: Save): ContractId {
    if s.contractsCompleted < 0 || s.contractsCompleted >= CONTRACTS then NoContract else Definition(s.contractsCompleted)
  }

  function DoStartContract(e: Env, s: Save, id: ContractId, now: int): Outcome {
    if s.activeContract != NoContract then Err(ContractActive)
    else if NextContract(s) == NoContract || NextContract(s) != id then Err(ContractSequence)
    else if !ContractsAvailable(e, s) then Err(ContractsLocked)
    else Ok(ResetGameplay(e, s, now).(contractsUnlocked := true, activeContract := id))
  }

  function DoAbandonContract(e: Env, s: Save, now: int): Outcome {
    if s.activeContract == NoContract then Err(NoActiveContract)
    else Ok(ResetGameplay(e, s, now).(activeContract := NoContract))
  }

  // ---- Names ----

  predicate StyleUnlocked(completed: int, style: NameStyle) {
    match style
    case Traditional => true
    case PurpleWave => completed >= 3
    case UnknownStyle => false
    case _ => completed >= 2
  }

  function DoSetNameStyle(s: Save, style: NameStyle): Outcome {
    if style == UnknownStyle then Err(UnknownNameStyle)
    else if !StyleUnlocked(s.contractsCompleted, style) then Err(NameStyleLocked)
    else Ok(s.(nameStyle := style))
  }

  function DoSetFarmName(e: Env, s: Save, name: string): Outcome {
    var trimmed := Id.TrimRight(e.unicode, Id.TrimLeft(e.unicode, name));
    if trimmed == "" then Err(NameEmpty)
    else if |trimmed| > 24 then Err(NameTooLong)
    else Ok(s.(farmName := trimmed))
  }

  // ---- One intent ----

  function Do(e: Env, s: Save, now: int, a: Action): Outcome {
    match a
    case Plant(i, crop) => DoPlant(e, s, i, crop, now)
    case Harvest(i) => DoHarvest(e, s, i, now)
    case ReplantAll => Ok(DoReplantAll(e, s, now))
    case BuyPlot => DoBuyPlot(e, s)
    case BuyZone(id) => DoBuyZone(e, s, id)
    case BuyMultiplier(id) => DoBuyMultiplier(e, s, id)
    case BuySeedUpgrade(id) => DoBuySeedUpgrade(e, s, id)
    case UpgradePlotAuto(i, kind) => DoUpgradePlotAuto(e, s, i, kind)
    case SetAutoSowCrop(i, crop) => DoSetAutoSowCrop(e, s, i, crop)
    case BuyUpgrade(id) => DoBuyUpgrade(e, s, id)
    case RedeemGift => DoRedeemGift(e, s)
    case CollectScarecrow(i) => DoCollectScarecrow(s, i)
    case CollectScarecrows => Ok(CollectFrom(s, 0))
    case BuyScarecrow => DoBuyScarecrow(e, s)
    case ShooCritter(i) => DoShooCritter(e, s, i)
    case Rebirth => DoRebirth(e, s, now)
    case StartContract(id) => DoStartContract(e, s, id, now)
    case AbandonContract => DoAbandonContract(e, s, now)
    case SetNameStyle(style) => DoSetNameStyle(s, style)
    case SetFarmName(name) => DoSetFarmName(e, s, name)
    case SetFlavor(on) => Ok(s.(flavorEnabled := on))
    case SetCritters(on) => Ok(s.(crittersEnabled := on))
  }

  // The state after a session's intent, and whether it was accepted.
  function Act(e: Env, s: Save, now: int, a: Action): (Save, bool) {
    match Do(e, s, now, a)
    case Ok(t) => (CheckAchievements(t, e.content.achievements, now).0, true)
    case Err(_) => (s, false)
  }
}
