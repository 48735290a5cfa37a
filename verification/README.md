# ssh-farm, verified

A Dafny model of the server-side core of ssh-farm: the save lifecycle, the deterministic
farm engine, the leaderboard, the rename gate, the name filter and the username codec.
`dafny verify dfyconfig.toml` checks all of it.

The save lifecycle (`Lifecycle`, `LifecycleSafety`, `LifecycleTheorems`) is a step machine:
the mutex is a field that records how far its holder has got, so every interleaving of
attach, intent, tick, autosave, detach and shutdown is one of its runs. `SaveActor` and
`Manager` are the actor's closures and the manager's methods as they run, the second over
objects of the first, each shown to be the machine's own steps. `FarmLifecycle` puts the
engine under the protocol.

The engine is stated once as functions of the save (`FarmState`, `FarmAdvance`,
`FarmActions`, over `Content` and `Money`) and once as it runs, in place, in the class
`Farm.Farm`, whose one mutable field is the save behind the source's state pointer: each
assignment to a field of the state is an assignment of that field there. A seed's draws
are an arbitrary function, so every result holds for any sequence of rolls in their
ranges; the season is an arbitrary predicate of time. The theorems are in `FastPath`,
`TimeSplit`, `Passage`, `WelcomeBack`, `Campaign`, `Charges`, `Luck`, `Mercy`, `Passive`,
`Scarecrows`, `Replant`, `Rebirth` and `Prices`; `Witnesses` holds the farms on which a promise fails.
Coins are int64 with the source's saturation written out; the products that do not
saturate, the golden harvest, the plot discount and the drop and shooing multipliers, wrap.

`books` in the save is a history variable: the wallet the run began with, every coin
credited and every coin paid, unbounded. The ledger is stated over it, and nothing else
reads it.

## Where the code and its promises part

- A denylisted word with two equal neighbours and at least three runs of letters can be
  hidden by repeating one inner letter: the stripped form is then too long and the collapsed
  form too short. `Evasion.EvasionProofExactlyWhen` gives exactly the words that are safe.
- The comment at internal/sim/advance.go:118-121 describes a fall-through to the per-cycle
  path at the cap; the `break` at line 146 leaves the loop instead, and the season test
  that would lead there never decides (`FastPath.TheSeasonGuardNeverDecides`). At the cap a
  steady plot is left unsettled exactly when the wallet holds less than one seed
  (`FastPath.TheCappedLoopIsExactWhen`; `Witnesses.TheCapLeavesAHarvest` is such a plot).
- The comment at internal/sim/advance.go:33-36 says no passive source credits coins inside
  a contract. Time harvests exactly when some automatic plot is ripe, leaves all the money
  alone when none is, and on content whose every harvest pays credits coins exactly then
  (`Passive.TimeHarvestsExactlyWhen`, `Passive.TimeCreditsExactlyWhen`). Inside a contract
  that happens only under Lean Season (`Passive.OnlyLeanSeasonEarnsByItself`), where play
  does reach it (`Witnesses.AutomaticPlotsPayUnderLeanSeason`). No contract completes by it
  (`Campaign.AdvanceKeeps`).
- Lean Season's six-plot cap guards plot purchases and the greenhouse by name; any other
  zone on sale passes it. The cap holds over a run exactly when every zone bought fits
  (`Campaign.TheCapHoldsExactlyWhenZonesFit`; `Witnesses.AnOrchardBreaksTheCap` is a run
  that breaks it).
- The mercy rule means an empty, broke farm to be able to plant its cheapest unlocked crop,
  but asks nothing of the season, which planting then does
  (`Mercy.AnEmptyFarmCanPlantExactlyWhen`; `Mercy.ANewFarmIsStuck`).
- The rename gate reads a last attempt at time zero as none
  (`RenameGate.TimeZeroNeverRefills`), and its day window starts with its first attempt, so
  a sliding day that crosses into a new window may hold more than the daily limit of sixty,
  up to a hundred and nineteen (`RenameGate.EveryWindowIsBounded`,
  `RenameGate.ACrowdedDayCrossesAWindow`, `RenameGate.AHundredAndNineteen`).
- A golden harvest whose product leaves int64 pays a wrapped amount
  (`WelcomeBack.TheGoldenPayoutIsExactWhen`; `Witnesses.AGoldenHarvestPaysNothing`).
- A price ladder whose base is above the largest int64 over 100 falls on its first rung
  (`Money.LadderNeverFallsExactlyWhen`; `Witnesses.TheSecondLevelIsCheaper`), and a plot
  price whose discount product leaves int64 wraps, whatever the discount
  (`Prices.TheDiscountIsExactWhen`; `Witnesses.TheFirstPlotCostsOneCoin`).

## Model

| member | source | states |
|---|---|---|
| LifecycleSafety.StepRefines | internal/game/manager.go:99-264 | Every step of every goroutine (lock phases of Attach, Detach and Shutdown, ticks, intents, autosaves, the loop's last flush) keeps the lifecycle invariant and has, on the map from save key to state, exactly the effect read off the step and the owner: none, create, settle, act or vanish |
| LifecycleTheorems.RunsRefineTheAtomicMap | internal/game/session.go:97-126 | After any interleaving a save's state is the replay, in order, of the run's accepted effects on its key: no intent is lost, repeated or applied to a stale state, though autosave writes may fail |
| LifecycleTheorems.TheRowHoldsTheLastState | internal/game/actor.go:64-112 | From boot, whenever no actor is registered for a keyed save, its row alone decodes to the replay of everything accepted since |
| LifecycleTheorems.RunKeepsBoards | internal/store/store.go:219-247 | On every run each row's leaderboard columns are those of the state its payload encodes |
| LifecycleTheorems.OneOwnerPerSave | internal/game/manager.go:151-175 | In every reachable state two sessions that own the same save are one session, and their actor is the registered one with its stop channel open |
| LifecycleTheorems.EverySessionMeetsItsFate | internal/game/session.go:57-73 | What each step does to each existing session, decided by the step alone: signed off with one reason by a takeover or a shutdown, leaving by its own Detach, closed, or untouched |
| LifecycleTheorems.OwnershipIsNeverRegained | internal/game/manager.go:160-175 | A session that does not own its save does not own it after any step |
| LifecycleTheorems.ReplacedForGood | internal/game/session.go:76-126 | A session once replaced never owns the save again, and every tick or intent it makes on any later run is shown no snapshot and changes nothing at all |
| LifecycleTheorems.ClosedForGood | internal/game/session.go:57-67 | Once a kick has been delivered the session's notices and closed channel never change again |
| LifecycleTheorems.TakeoverKicksExactlyOnce | internal/game/manager.go:151-175 | A taken-over session had heard nothing before and, whatever runs after, has exactly the one takeover reason in its one-place channel |
| LifecycleTheorems.StopClosesOnceAndOnlyUnowned | internal/game/manager.go:213-223 | The stop channel is closed only by stopActorLocked, only while it is open, and only when nobody owns the actor |
| LifecycleTheorems.AReplacedSessionsDetachStopsNothing | internal/game/manager.go:193-209 | Detach of a session that no longer owns the save stops no actor, changes no owner and unregisters nothing |
| LifecycleTheorems.JoiningAnActorNeverFails | internal/game/manager.go:176-181 | Attach's closing-save failure cannot happen: while the lock is held for joining, the actor's loop is running |
| LifecycleTheorems.AFinishedSweepLeavesNothing | internal/game/manager.go:228-264 | After a completed Shutdown no actor is registered and every loop has ended |
| LifecycleTheorems.ClosingAdmitsNobody | internal/game/manager.go:103-105 | Once closing is set no run adds a session or an actor |
| LifecycleTheorems.TheHolderCanAlwaysGoOn | internal/game/manager.go:193-223 | While the mutex is held some step that takes it forward, by its holder or by the loop its holder waits for, is enabled |
| LifecycleTheorems.EveryStepKeepsTheReleaseNear | internal/game/manager.go:99-264 | Such a step brings the release strictly nearer, and no other step of any goroutine takes it further away or passes the mutex on |
| LifecycleTheorems.TheMutexIsReleasedInSixSteps | internal/game/manager.go:99-264 | On every run that holds the mutex throughout at most six such steps are taken, and at its end the mutex is free or one of them is enabled: no interleaving deadlocks on the mutex, a mailbox or a done channel |
| Manager.Manager.Attach | internal/game/manager.go:99-189 | Run uninterrupted, Attach is a run of the step machine: refused for exactly one reason, the first of the source's order that applies, leaving sessions and, but for a store failure, everything as it was; otherwise a new session owns the save, created says there was none, the away report's catch-up starts from the save's state before, and the save is that state caught up to now |
| Manager.Manager.Load | internal/game/manager.go:130-149 | Loads the row or inserts a new one, and registers an actor exactly when the payload decodes |
| Manager.Manager.Join | internal/game/manager.go:160-184 | The attach closure on the actor: refused, or the old owner is kicked once and the new session owns a caught-up save |
| Manager.Manager.Detach | internal/game/manager.go:193-209 | Run uninterrupted, Detach is a run of the step machine that keeps the invariant and closes the session |
| Manager.Manager.StopActor | internal/game/manager.go:213-223 | Stopping an actor is the machine's close, final flush, loop exit and unregister, or the unregister alone when the loop has ended |
| Manager.Manager.Tick | internal/game/session.go:76-95 | On the objects, a session's tick is the machine's Tick step, and the snapshot handed back is the owner's or none |
| Manager.Manager.Intent | internal/game/session.go:97-126 | On the objects, a session's intent is the machine's Intent step, and the snapshot handed back is the owner's or none |
| Manager.Manager.Shutdown | internal/game/manager.go:228-264 | The whole Shutdown loop is a run of the step machine that ends with closing set and an empty registry |
| SaveActor.SessionHandle.DeliverKick | internal/game/session.go:57-67 | Sends at most one reason, never into a full channel, and closes once |
| SaveActor.SaveActor.Persist | internal/game/actor.go:88-112 | Writes exactly when keyed, dirty and the store takes it; clean only after a write; the row and the actor move together |
| SaveActor.SaveActor.Tick | internal/game/session.go:76-95 | Only the owner's tick advances the save and sees a snapshot |
| SaveActor.SaveActor.Intent | internal/game/session.go:97-126 | Only the owner's intent runs; time passes first, and an accepted intent leaves the save dirty |
| SaveActor.SaveActor.Join | internal/game/manager.go:160-175 | A refused join changes nothing; an admitted one kicks the old owner with the takeover reason and catches the save up |
| SaveActor.SaveActor.Release | internal/game/manager.go:199-205 | Gives the save up exactly when this session owns it, and persists either way |
| SaveActor.SaveActor.SignOff | internal/game/manager.go:242-251 | Shutdown's closure: the owner hears the reason for its kind of save and owns it no longer |
| FarmLifecycle.FarmRulesAreLawful | internal/game/session.go:97-126 | The engine meets the protocol's three laws: decoding undoes encoding, a save whose clock has not moved is untouched, a refused intent changes nothing |
| FarmLifecycle.TheServerKeepsEverySave | internal/game/manager.go:99-264 | From boot, under every interleaving of attaches, intents, ticks, autosaves, detaches and shutdowns, every save keeps a balanced ledger, a campaign in order and its contract's restrictions, and a keyed save never loses lifetime earnings or a completed contract |
| FastPath.TheCappedLoopIsExactWhen | internal/sim/advance.go:105-192 | On a steady auto-sow plot without saturation the capped and batched loop gives the very save and report of the uncapped one-harvest-at-a-time loop if and only if at most 50,000 harvests are due or the wallet at the cap still holds one seed |
| Witnesses.TheCapLeavesAHarvest | internal/sim/advance.go:115-147 | On content the validator accepts, one second of play reaches a plot with 50,001 harvests due that the capped loop leaves one coin short of the uncapped one |
| FastPath.OneSeedIsEnough | internal/sim/advance.go:116-142 | A wallet that starts with one seed always meets that condition |
| FastPath.CyclesGather | internal/sim/advance.go:105-192 | The closed form of the loop from any number of turns taken: wallet, earnings, harvest count, plot and report, including how far it gets when the batch is refused |
| FastPath.TheLoopIsBounded | internal/sim/advance.go:115-147 | For all content and any absence a plot's loop turns at most one more time than its cap |
| FastPath.TheSeasonGuardNeverDecides | internal/sim/advance.go:117-147 | Dropping the season test at the cap changes nothing: a plot only reaches the cap by replanting in season |
| TimeSplit.EveryPlot | internal/sim/advance.go:93-193 | The nested loops over plots sharing one wallet compute every plot's closed-form stint, for any mix of steady, harvest-only, manual and empty plots |
| TimeSplit.TwoSettlementsAreOne | internal/sim/advance.go:57-193 | Settling every plot to t1 and then to t2 gives the save and the report of settling straight to t2 |
| TimeSplit.HoweverTimeIsCut | internal/sim/advance.go:93-193 | The same for any sequence of instants: every harvest is paid once, every seed bought once, every manual crop reported ripe once |
| Passage.AdvancePasses | internal/sim/advance.go:51-205 | Advance completes no contract, automates no plot, buys and loses nothing, keeps the books balanced, never lowers lifetime earnings, and brings no event, parcel or drop under a contract that denies them |
| Farm.Farm.WorkPlot | internal/sim/advance.go:115-192 | The per-plot loop in place equals the specified cycles and turns at most cap plus one times |
| Farm.Farm.SettlePlots | internal/sim/advance.go:93-193 | The loop over plots equals the specified settlement, plot by plot in order |
| Farm.Farm.Reap | internal/sim/advance.go:148-163 | One automatic harvest's credits and report entries |
| Farm.Farm.Replant | internal/sim/advance.go:168-191 | Replants exactly when affordable, unlocked and in season, with the queued crop, else leaves the plot empty |
| Farm.Farm.Batch | internal/sim/advance.go:123-140 | The batch: saturating gross, seeds capped at the wallet, harvest count and the plot's new cursor |
| Farm.Farm.HarvestPayout | internal/sim/advance.go:368-393 | Rolls in source order: failure, golden, discovery; each drawn only when the content calls for it |
| Farm.Farm.AdvanceScarecrows | internal/sim/scarecrow.go:114-147 | Clock, drops and every pouch in place equal the specified drop clock |
| Farm.Farm.GatherDrops | internal/sim/scarecrow.go:134-146 | The roll loop up to the cap and the mean for the rest equal the specified drops |
| Farm.Farm.Advance | internal/sim/advance.go:51-205 | The whole tick in source order equals the specified Advance, save and report |
| Farm.Farm.RollGiftArrival | internal/sim/advance.go:253-279 | Brings at most one parcel, only when none waits, stamped with the moment and reported, and takes none away |
| Farm.Farm.CheckAchievements | internal/sim/advance.go:408-433 | Reports an id exactly when its achievement is met and not yet recorded, and equals the specified check |
| Farm.Farm.Credit | internal/sim/state.go:278-289 | Wallet, run and lifetime earnings saturate; an active contract's counter moves and may complete |
| Farm.Farm.CreditStarseeds | internal/sim/contracts.go:233-242 | The same for Starseeds |
| Farm.Farm.CheckContractCompletion | internal/sim/contracts.go:244-266 | Completes exactly when the active contract's own goal is reached, and clears all three counters |
| Farm.Farm.Plant | internal/sim/actions.go:35-60 | Every refusal in source order leaves the save as it was; otherwise the cost, or nothing under mercy, and the planted plot |
| Farm.Farm.ReplantAll | internal/sim/actions.go:75-124 | The sweep in place equals the specified one, and its result counts are the greedy choice's size, cost and shortfall and the locked plots |
| Farm.Farm.Harvest | internal/sim/actions.go:136-161 | Refuses without change, or credits payout and discovery and empties the plot |
| Farm.Farm.BuyPlot | internal/sim/actions.go:164-179 | Refuses without change, or charges the quoted price for one more plot |
| Farm.Farm.BuyZone | internal/sim/actions.go:182-205 | Refuses without change, or charges the zone and appends its plots one by one |
| Farm.Farm.BuyMultiplier | internal/sim/actions.go:208-223 | Refuses without change, or charges the level's price |
| Farm.Farm.BuySeedUpgrade | internal/sim/actions.go:226-245 | Refuses without change, or charges the strain's price; the level is kept by crop |
| Farm.Farm.UpgradePlotAuto | internal/sim/actions.go:248-287 | Refuses without change in source order, or charges and sets exactly one flag |
| Farm.Farm.SetAutoSowCrop | internal/sim/actions.go:293-317 | Refuses without change, or queues the crop, clearing the queue for the crop planted |
| Farm.Farm.BuyUpgrade | internal/sim/actions.go:320-335 | Refuses without change, or charges Starseeds for one level |
| Farm.Farm.RedeemGift | internal/sim/actions.go:344-368 | Refuses without change, or clears the parcel and credits Starseeds or coins |
| Farm.Farm.GiftCoinReward | internal/sim/actions.go:370-388 | Never above the ceiling, and never below the floor unless that is above the ceiling |
| Farm.Farm.ShooCritter | internal/sim/actions.go:391-403 | Refuses without change, or clears the visitor and credits the scaled roll |
| Farm.Farm.BuyScarecrow | internal/sim/scarecrow.go:54-74 | Refuses without change in source order, or charges the saturating price for an empty pouch |
| Farm.Farm.CollectScarecrow | internal/sim/scarecrow.go:159-170 | Refuses without change, or empties one pouch into the wallet |
| Farm.Farm.CollectScarecrows | internal/sim/scarecrow.go:174-182 | The loop empties every pouch that has something |
| Farm.Farm.Rebirth | internal/sim/actions.go:419-451 | Refuses without change, or banks pouches, pays the gain, resets the run and checks the contract |
| Farm.Farm.StartContract | internal/sim/contracts.go:150-166 | Refuses without change in source order, or resets the economy and makes the next contract active |
| Farm.Farm.AbandonContract | internal/sim/contracts.go:170-177 | Refuses without change, or resets the economy and leaves no contract active |
| Farm.Farm.ResetGameplay | internal/sim/contracts.go:179-202 | Exactly the run, economy and counter fields are reset |
| Farm.Farm.SetNameStyle | internal/sim/contracts.go:281-299 | Refuses unknown and locked styles without change |
| Farm.Farm.PlotPrice | internal/sim/derive.go:224-253 | The ladder loop and the discount equal the specified price |
| Farm.Farm.AutoHarvestPrice | internal/sim/derive.go:256-275 | Counts automated plots and climbs that many rungs |
| Farm.Farm.LevelPrice | internal/sim/derive.go:279-324 | One loop for upgrades, multipliers and strains: the specified level price |
| Farm.Farm.ScarecrowPrice | internal/sim/scarecrow.go:29-39 | The saturating ladder over the scarecrows owned |
| Farm.Farm.CheapestUnlockedCrop | internal/sim/derive.go:26-38 | None exactly when nothing is unlocked; otherwise the first crop no unlocked crop is cheaper than |
| Farm.Farm.Intent | internal/game/session.go:97-126 | One session intent in place: time first, then the intent, achievements only if accepted; announces the contract this call completed and nothing otherwise |
| Campaign.RunsKeep | internal/sim/contracts.go:140-202 | Every run of ticks and intents keeps the ledger balanced, the campaign in order (active is none or the definition at the completed count; goal open; counters zero when none; style unlocked), and every restriction; lifetime earnings and completed contracts never fall |
| Campaign.ANewSaveIsKept | internal/sim/state.go:131-150 | A new save starts in that invariant |
| Campaign.TheWalletIsExplained | internal/sim/state.go:278-289 | From a new save, after any play: coins are the run's starting wallet plus run earnings less payments until those pass the largest int64, never negative; run earnings never exceed lifetime earnings |
| Campaign.EveryCompletionIsAnnouncedOnce | internal/game/session.go:106-120 | Over any run the announcements are exactly the contracts completed, in campaign order, each once |
| Campaign.AdvanceKeeps | internal/sim/advance.go:195-199 | Time alone completes no contract, so Advance's own announcement is always empty |
| Campaign.ActKeeps | internal/game/session.go:112-120 | An intent keeps every invariant, or is refused and changes nothing |
| Campaign.LeanSeasonStaysSmall | internal/sim/contracts.go:229-231 | With at most six starting plots and no zone but the greenhouse, no run under Lean Season has more than six plots |
| Campaign.TheCapHoldsExactlyWhenZonesFit | internal/sim/actions.go:182-205 | From within the cap, every state of a run under Lean Season has at most six plots if and only if every zone the run bought under it still fitted |
| Witnesses.AnOrchardBreaksTheCap | internal/sim/actions.go:187-203 | On content the validator accepts, five intents from a new save end with seven plots under Lean Season |
| Luck.LuckHolds | internal/sim/advance.go:67-115 | After any run: a running event is one of the content's, has not ended and lasts at least the shortest duration; every visitor is of a known kind and their number is within a positive cap; no stamp is left of a parcel that is gone |
| Luck.ANewSaveIsSound | internal/sim/state.go:131-150 | A new save starts in that invariant |
| Luck.EventRolled | internal/sim/advance.go:281-332 | A running event is left alone; otherwise only draws happen, or one event of the content starts now, is reported, and lasts between the two durations of the moment |
| Luck.VisitIsSound | internal/sim/advance.go:334-364 | A visit keeps visitors of known kinds and their number within a positive cap |
| Luck.ParcelsAreConserved | internal/sim/advance.go:253-279 | Over any run the parcel waiting at first and those reported are the redeemed ones, those a contract's reset threw away, and the one still waiting: none is redeemed twice and time loses none |
| Luck.AParcelIsCertainExactlyWhen | internal/sim/advance.go:253-279 | After an absence a parcel waits whatever is rolled if and only if one already did or the absence was at least the offline interval |
| Luck.GiftCoinsAreBounded | internal/sim/actions.go:370-388 | The reward is never above the ceiling, never below the floor unless that is above the ceiling, and within a fifth of its base either way |
| Luck.RedeemPays | internal/sim/actions.go:344-368 | Accepted exactly when a parcel waits and no contract forbids it; pays Starseeds, only after a rebirth, or coins between floor and ceiling, saturating |
| Mercy.TheCheapestIsCheapest | internal/sim/derive.go:26-38 | The scan finds nothing exactly when nothing is unlocked, and otherwise the first of the unlocked crops with the least seed cost |
| Mercy.AnEmptyFarmCanPlantExactlyWhen | internal/sim/derive.go:40-54 | On a farm with nothing planted some Plant is accepted if and only if an unlocked crop in season is affordable or the cheapest unlocked crop is in season |
| Mercy.ANewFarmIsStuck | internal/sim/actions.go:35-60 | On content the validator accepts whose cheapest crop is out of season, a new farm with an empty wallet can plant nothing |
| Mercy.TheCheckReportsExactly | internal/sim/advance.go:408-433 | A check reports, in content order, exactly the achievements met and not yet recorded |
| Mercy.TheCheckRecordsExactly | internal/sim/advance.go:408-433 | It records what it reports, now, and nothing else |
| Mercy.ASecondCheckIsSilent | internal/sim/advance.go:408-433 | Checking again, whenever, reports and records nothing |
| Scarecrows.TheClockConservesTime | internal/sim/scarecrow.go:114-147 | Over any sequence of online and offline advances: drops times the target plus the final clock is the first clock plus all that was owed, with the clock below the target, so total drops do not depend on how time was split; every pouch grows by between drops at the lowest and drops at the highest roll, the mean tail included |
| Scarecrows.AdvanceTurnsTheClock | internal/sim/scarecrow.go:114-147 | The same for one whole Advance |
| Scarecrows.DropMonotone | internal/sim/scarecrow.go:78-86 | With multipliers inside int64 a dearer roll never drops fewer coins, saturated or not |
| Replant.ReplantAllIsGreedy | internal/sim/actions.go:75-124 | The candidates are exactly the empty plots with a plantable remembered crop, dearest first and in plot order; the planted set is lexicographically maximal among affordable choices; every short plot costs more than the final wallet; coins drop by exactly the cost of what was planted; every other plot is unchanged |
| Replant.DearestFirstSorts | internal/sim/actions.go:103-104 | The order is a permutation, dearest first, ties in plot order |
| Replant.GreedyIsBest | internal/sim/actions.go:106-122 | No affordable choice over the list plants an earlier plot that greedy buying leaves out |
| Rebirth.RebirthPaysThePreview | internal/sim/actions.go:419-451 | With non-negative pouches the gain paid after banking them equals the preview before, even when sums saturate |
| Rebirth.CollectingBanks | internal/sim/scarecrow.go:149-182 | Emptying pouches one credit at a time saturates exactly where their total does |
| Prices.MorePlotsCostNoLess | internal/sim/derive.go:224-253 | After any discount a later plot is never cheaper, and stays within the ceiling |
| Prices.HigherLevelsCostNoLess | internal/sim/derive.go:277-324 | Upgrades, multipliers and strains: a higher level is never cheaper, across the ceiling too |
| Prices.MoreAutomationCostsNoLess | internal/sim/derive.go:256-275 | Auto-harvest is never cheaper with more plots automated |
| Prices.MoreScarecrowsCostNoLess | internal/sim/scarecrow.go:29-39 | A further scarecrow is never cheaper |
| Money.LadderFits | internal/sim/derive.go:231-248 | With a base within the largest int64 over 100, every product of the loop and the discount step fit in int64 |
| Money.LadderNeverFallsExactlyWhen | internal/sim/derive.go:222-324 | A ladder never gets cheaper if and only if its base is within that ceiling |
| Witnesses.TheSecondLevelIsCheaper | internal/sim/derive.go:295-309 | On content the validator accepts, a multiplier bought by play for the largest int64 is quoted a hundredth of that for its second level |
| Prices.TheDiscountIsExactWhen | internal/sim/derive.go:245-248 | The discounted plot price is right if and only if its unguarded product fits in int64 |
| Witnesses.TheFirstPlotCostsOneCoin | internal/sim/derive.go:231-252 | On content the validator accepts, a plot priced at the largest int64 is sold to a new save for one coin |
| Money.LaddersAgree | internal/sim/scarecrow.go:29-39 | Within the ceiling the scarecrow's saturating ladder is the ordinary one |
| Money.ClimbLadder | internal/sim/derive.go:231-238 | The loop every ladder runs, early exit included, returns the specified rung |
| Money.Isqrt | internal/sim/derive.go:344-356 | From any non-negative first guess the correction loops return the exact floor square root, never dividing by zero or leaving int64 |
| Money.FloorSqrt | internal/sim/derive.go:343-356 | The floor square root by its defining inequalities |
| Money.SatMulCaps | internal/sim/state.go:266-275 | On non-negative operands the guarded product is the product capped at the largest int64 |
| Money.SatAddAssociates | internal/sim/state.go:257-264 | Saturating addition does not care how sums are grouped |
| Charges.EveryIntentChargesItsQuote | internal/sim/actions.go:33-451 | An accepted intent begins the run again, or earns without spending, or takes from the wallet exactly the price shown before it, and the books record that price |
| WelcomeBack.TheReportAddsUp | internal/sim/advance.go:51-205 | Short of saturation and of an overflowing golden product, the automatic and discovered coins an Advance reports are exactly what the wallet gained |
| WelcomeBack.TheBatchPaysBetweenWorstAndBest | internal/sim/advance.go:395-405 | For a risky crop the batch's expected payout lies between every harvest failing and none |
| WelcomeBack.TheGoldenPayoutIsExactWhen | internal/sim/advance.go:378-385 | A golden harvest pays the multiplied payout if and only if the unguarded product fits in int64 |
| Witnesses.AGoldenHarvestPaysNothing | internal/sim/advance.go:378-385 | On content the validator accepts, a crop planted and harvested by play turns golden, its product wraps to minus two, and the harvest is accepted, counted and pays nothing |
| Passive.TimeHarvestsExactlyWhen | internal/sim/advance.go:93-193 | For any save with its ledger balanced and its goal open, an Advance reports an automatic harvest if and only if, once events have come and gone, some automated plot its contract lets work has its crop due; if none has, wallet, books, run, lifetime and contract earnings and the harvest count are unchanged |
| Passive.TimeCreditsExactlyWhen | internal/sim/advance.go:33-36 | On content whose every harvest pays something, an Advance credits coins if and only if some plot is ripe, and inside a contract short of saturation exactly then does its earnings counter rise |
| Passive.OnlyLeanSeasonEarnsByItself | internal/sim/advance.go:33-36 | Inside a contract an Advance harvests, or changes any money at all, only under Lean Season and only with a ripe plot |
| Passive.EveryRunEarnsByHand | internal/sim/contracts.go:204-231 | On every run, each Advance made under Bare Hands or Clockwork Denied leaves the money alone |
| Witnesses.AutomaticPlotsPayUnderLeanSeason | internal/sim/advance.go:33-36 | Six intents from a new save, on content the validator accepts, reach Lean Season with an automatic plot sown; a second later its harvest is in the wallet and in the contract's earnings |
| Money.FloorSqrtMonotone | internal/sim/derive.go:326-329 | More earnings never give fewer Starseeds |
| Farm.Farm.EffectTotal | internal/sim/derive.go:415-423 | The loop sums the values of the items with that effect by their levels |
| Farm.Farm.StartWallet | internal/sim/derive.go:212-220 | The new run's wallet, saturating upgrade by upgrade |
| Farm.Farm.ScarecrowPouchTotal | internal/sim/scarecrow.go:150-156 | The saturating sum of the pouches |
| Farm.Farm.FindCandidates | internal/sim/actions.go:83-101 | Collects exactly the plantable empty plots in plot order and counts the locked ones |
| BoardCache.OneRebuildAtATime | internal/leaderboard/engine.go:102-133 | For any number of callers and any interleaving at most one rebuild runs |
| BoardCache.GoodRebuildsAreATtlApart | internal/leaderboard/engine.go:104-121 | After a successful rebuild the next one starts at least a TTL later |
| BoardCache.EveryAnswerIsFreshOrShared | internal/leaderboard/engine.go:102-133 | Each caller gets rows younger than the TTL, or the outcome of a rebuild published after its call began; nobody reads an unfilled record |
| BoardCache.AFailureKeepsTheLastGoodRows | internal/leaderboard/engine.go:122-128 | The cached rows change only when a rebuild succeeds |
| BoardCache.NobodyWaitsForever | internal/leaderboard/engine.go:110-132 | A caller without an answer can move, or waits on a build whose leader can |
| Leaderboard.Rebuild | internal/leaderboard/engine.go:141-196 | The linear pass gives every filtered row its competition rank, name and suffix flag by their counting definitions |
| Leaderboard.BuildBoard | internal/leaderboard/engine.go:200-250 | Top, You and Window are the slices their case calls for |
| BoardCache.EveryAnswerKeepsThePromise | internal/leaderboard/engine.go:102-133 | Rows in any answer are what a rebuild may return, for a snapshot of the source taken no later than the answer's own time stamp |
| BoardEngine.Get | internal/leaderboard/engine.go:91-97 | A failed answer is passed through; rows become the viewer's board |
| BoardEngine.Refresh | internal/leaderboard/engine.go:141-196 | A rebuild from the source's answer: its error, or rows that rank the snapshot taken |
| BoardEngine.EveryBoardIsTrueOfASnapshot | internal/leaderboard/engine.go:91-250 | Under every interleaving each board shown is true of one snapshot no later than it says: its ranks count the strictly richer counted rows, and You is there exactly when that save's row is |
| Leaderboard.Get | internal/leaderboard/engine.go:141-250 | Filtering, ranking and the board in one call, without the cache between |
| Leaderboard.EveryRankCountsTheRicher | internal/leaderboard/engine.go:141-250 | Every rank shown is one more than the number of strictly richer counted rows |
| Leaderboard.YouAppearExactlyWhenCounted | internal/leaderboard/engine.go:203-231 | You is present exactly when that save's row survives the filters |
| Leaderboard.TheWindowIsAroundYou | internal/leaderboard/engine.go:232-248 | Past the tenth rank the window is a contiguous slice holding You exactly once and sharing no save with the top |
| RenameGate.RenameTable.GateRename | internal/store/store.go:511-569 | Validation, missing row, lock, burst, day window and budget in source order; every refusal writes nothing |
| RenameGate.EveryWindowIsBounded | internal/store/store.go:469-569 | Over any history with a non-decreasing clock: at most five allowed attempts in any 60 seconds, sixty in any day window, and a hundred and nineteen in any sliding day, or a hundred and twenty for a row untried within a day of time zero |
| RenameGate.ACrowdedDayCrossesAWindow | internal/store/store.go:536-556 | A sliding day holds more than sixty allowed attempts only when two of them belong to day windows a day apart |
| RenameGate.AHundredAndNineteen | internal/store/store.go:469-569 | A history of a new row that puts a hundred and nineteen allowed attempts into one sliding day |
| RenameGate.AHundredAndTwenty | internal/store/migrations.go:50-52 | A history, from near time zero, that puts a hundred and twenty into one |
| RenameGate.RefusalsCostNothing | internal/store/store.go:498-510 | Locked and refused attempts change no counter, however many there are |
| RenameGate.TheRefillIsExact | internal/store/store.go:507-569 | After any number of refusals the next attempt is allowed if and only if a cooldown has passed since the last allowed one, the name is not locked and the day has budget |
| RenameGate.TimeZeroNeverRefills | internal/store/store.go:511-569 | A last attempt at time zero reads as none: five attempts at time zero shut the gate for good |
| Evasion.EvasionProofExactlyWhen | internal/moderation/normalize.go:18-75 | A letter word is proof against every mix of case change, leet substitution, separator insertion and letter repetition in any surrounding text if and only if it has no two equal neighbours or at most two runs of letters |
| Evasion.DisguisedWordsAreDenied | internal/moderation/denylist.go:77-101 | A name carrying a disguised word without equal neighbours is denied unless its stripped form is allow-listed |
| Evasion.TheRepetitionThatHides | internal/moderation/normalize.go:38-75 | For every other word the one repetition that hides it |
| Evasion.AbbbaPasses | internal/moderation/denylist.go:77-101 | A concrete word and name for which the promise fails |
| Moderation.FoldLeet | internal/moderation/normalize.go:19-30 | Folding is character by character |
| Moderation.CollapseRepeats | internal/moderation/normalize.go:40-52 | The loop keeps one of each run |
| Moderation.TokensAreWords | internal/moderation/normalize.go:61-63 | Every token is a whole word of the folded name |
| Moderation.WordsAreTokens | internal/moderation/normalize.go:61-63 | Every whole word is a token |
| Moderation.NewDenylist | internal/moderation/denylist.go:43-75 | The three sets hold exactly the cleaned entries of their kind; a refused list is refused for its first bad entry, by index |
| Moderation.Blocks | internal/moderation/denylist.go:83-101 | Blocked exactly when not allow-listed and a substring or whole word matches |
| Moderation.Check | internal/moderation/normalize.go:70-75 | The pipeline end to end decides exactly the denied names |
| Identity.ParseUndoesEncode | internal/identity/proxy.go:69-79 | Parsing an encoding returns the digest and the sanitised slot; encoding fails exactly when nothing of the slot is left |
| Identity.EncodeUndoesParse | internal/identity/proxy.go:29-66 | Any username that parses is the encoding of its result |
| Identity.AcceptedUsernamesNeverCollide | internal/identity/proxy.go:29-66 | Distinct accepted usernames name distinct saves |
| Identity.AcceptedExactlyWhenWellFormed | internal/identity/proxy.go:29-66 | Acceptance by shape alone: 64 lower-case hex digits, a dot, a slot |
| Identity.SanitizeSlot | internal/identity/identity.go:62-83 | The loop with its early stop returns the specified slot, which is empty or well formed |
| Identity.SanitizeIsIdempotent | internal/identity/identity.go:62-83 | Sanitising twice is sanitising once |
| Identity.SlotsAreTheFixedPoints | internal/identity/identity.go:62-83 | A string is a slot exactly when sanitising leaves it, non-empty, as it is |

## Left out

- Farm.Farm.WorkPlot: the save's fields are one record field of the class, reassigned field by field, so aliasing between the state and a pointer into its plots is not captured.
- LifecycleTheorems.TheRowHoldsTheLastState: assumes the loop's final flush reaches the store; autosave and disconnect writes may fail.
- BoardCache.EveryAnswerIsFreshOrShared: a rebuild counts as finished when its result is published; its rows were read shortly before.
- BoardCache.AFailureKeepsTheLastGoodRows: the engine's lock-protected fields are a value each caller's step replaces, as interleaving needs; update in place is not captured.
- Moderation.NewDenylist: boot's fail-closed rules and the reload that swaps the list atomically are not modelled.
- TimeSplit.TwoSettlementsAreOne: gift, event and critter rolls and event expiry are held out, since they depend on how time is cut.
- Scarecrows.TheClockConservesTime: asks that the drop multipliers fit in int64, because the source does not saturate them.
- WelcomeBack.TheReportAddsUp: asks that no golden harvest of the content overflows, because the source does not saturate that product.
- Manager.Manager.Attach: what the store and the account table answer is a parameter, ids are those of characters rather than runes, and the away report is given by the state its catch-up started from.
- Farm.Farm.SetFarmName: counts characters of the model's strings; on text outside ASCII the source counts runes.
- Identity.AcceptedExactlyWhenWellFormed: characters stand for bytes, which is exact for ASCII.
- JSON, TOML and SQL: a payload is modelled by the save it encodes, content by its validated fields, the store by a map with atomic row writes; migrations of old payload versions are not modelled.
- Content bounds: prices, the starting wallet and growth are within int64; seed cost, sell value and bonus products are assumed not to overflow where the source multiplies them unguarded, and the moon bonus is not negative.
- The random generator's algorithm and statistics, and gift and event rates: a draw is any value.
- A clock that goes backwards within the rename gate's history, process kill, and panics inside a rebuild.
- DevApply, imports of version 1 saves, restore checks, the terminal UI, the SSH server, themes and news settings, vignettes, moon labels, and name validation and generation: settings, display or plumbing.
