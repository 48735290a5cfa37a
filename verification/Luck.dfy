// Parcels, events and visitors: what the rolls outside the plots can and cannot bring,
// in one call and over every run.
module Luck {
  import opened Common
  import opened Money
  import opened FarmState
  import opened FarmAdvance
  import opened FarmActions
  import opened Campaign
  import C = Content

  // ---- Visitors ----

  predicate OnlyLeave(p: seq<Plot>, q: seq<Plot>) {
    forall j :: 0 <= j < |q| ==> q[j].critter == "" || (j < |p| && q[j].critter == p[j].critter)
  }

  lemma {:induction false} FewerVisitors(p: seq<Plot>, q: seq<Plot>)
    requires OnlyLeave(p, q)
    ensures CritterCount(q) <= CritterCount(p)
    decreases |q|
  {
    if q != [] {
      if p == [] {
        assert q[0].critter == "";
        FewerVisitors(p, q[1..]);
      } else {
        FewerVisitors(p[1..], q[1..]);
      }
    }
  }

  lemma {:induction false} OneMoreAtMost(p: seq<Plot>, i: nat, plot: Plot)
    requires i < |p|
    ensures CritterCount(p[i := plot]) <= CritterCount(p) + 1
    decreases i
  {
    if i > 0 {
      assert p[i := plot][1..] == p[1..][i - 1 := plot];
      OneMoreAtMost(p[1..], i - 1, plot);
    } else {
      assert p[i := plot][1..] == p[1..];
    }
  }

  // Every visitor is one the content knows, and no more are there than its cap allows.
  predicate VisitorsSound(e: Env, plots: seq<Plot>) {
    && (forall j :: 0 <= j < |plots| ==> plots[j].critter == "" || plots[j].critter in e.content.critters.kinds)
    && (e.content.critters.maxActive > 0 ==> CritterCount(plots) <= e.content.critters.maxActive)
  }

  lemma LeavingIsSound(e: Env, p: seq<Plot>, q: seq<Plot>)
    requires OnlyLeave(p, q) && VisitorsSound(e, p)
    ensures VisitorsSound(e, q)
  {
    hide CritterCount;
    FewerVisitors(p, q);
  }

  lemma VisitIsSound(e: Env, s: Save, i: nat, ev: Report)
    requires i < |s.plots| && VisitorsSound(e, s.plots)
    ensures VisitorsSound(e, MaybeCritter(e, s, i, ev).0.plots)
  {
    hide CritterCount;
    var t := MaybeCritter(e, s, i, ev).0;
    assert t.plots == s.plots || t.plots == s.plots[i := t.plots[i]];
    OneMoreAtMost(s.plots, i, t.plots[i]);
  }

  lemma HarvestingMovesNobody(e: Env, s: Save, i: nat, crop: C.Crop, matureAt: int, to: int, ev: Report)
    requires i < |s.plots|
    ensures OnlyLeave(s.plots, HarvestOnce(e, s, i, crop, matureAt, to, ev).0.plots)
  {
    hide Reap, SeedCost, Unlocked, SeasonalPlantable;
  }

  lemma {:induction false} CyclesMoveNobody(
    e: Env, s: Save, i: nat, crop: C.Crop, grow: C.pos, matureAt: int, cycles: nat, to: int, ev: Report)
    requires i < |s.plots|
    ensures OnlyLeave(s.plots, Cycles(e, s, i, crop, grow, matureAt, cycles, to, ev).0.plots)
    decreases Max(to - matureAt + 1, 0)
  {
    hide HarvestOnce, GrowSeconds, CanBatch, Credit, ExpectedPayout, SeedCost;
    if matureAt <= to && cycles < AUTO_CYCLE_CAP {
      var (t, ev', next) := HarvestOnce(e, s, i, crop, matureAt, to, ev);
      HarvestingMovesNobody(e, s, i, crop, matureAt, to, ev);
      if next.Some? {
        var g := if next.value.id != crop.id then GrowSeconds(e, t, next.value) else grow;
        CyclesMoveNobody(e, t, i, next.value, g, matureAt + g, cycles + 1, to, ev');
      }
    }
  }

  lemma SettlingIsSound(e: Env, s: Save, i: nat, from: int, to: int, online: bool, ev: Report)
    requires i < |s.plots| && VisitorsSound(e, s.plots)
    ensures VisitorsSound(e, SettlePlot(e, s, i, from, to, online, ev).0.plots)
  {
    hide VisitorsSound, MaybeCritter, Cycles, GrowSeconds, BlocksAutomation;
    VisitIsSound(e, s, i, ev);
    var found := C.CropIn(e.content.crops, s.plots[i].crop);
    if found.Some? {
      var grow := GrowSeconds(e, s, found.value);
      CyclesMoveNobody(e, s, i, found.value, grow, s.plots[i].plantedAt + grow, 0, to, ev);
      LeavingIsSound(e, s.plots, Cycles(e, s, i, found.value, grow, s.plots[i].plantedAt + grow, 0, to, ev).0.plots);
    }
  }

  lemma {:induction false} SettlingAllIsSound(e: Env, s: Save, i: nat, from: int, to: int, online: bool, ev: Report)
    requires VisitorsSound(e, s.plots)
    ensures VisitorsSound(e, SettlePlots(e, s, i, from, to, online, ev).0.plots)
    decreases |s.plots| - i
  {
    hide VisitorsSound, SettlePlot;
    if i < |s.plots| {
      var (t, ev') := SettlePlot(e, s, i, from, to, online, ev);
      SettlingIsSound(e, s, i, from, to, online, ev);
      SettlingAllIsSound(e, t, i + 1, from, to, online, ev');
    }
  }

  // ---- Events ----

  lemma {:induction false} EventFound(events: seq<C.Event>, k: nat)
    requires k < |events|
    ensures C.EventIn(events, events[k].id).Some?
  {
    if k > 0 {
      EventFound(events[1..], k - 1);
    }
  }

  // The running event is one of the content's, has not ended, and lasts at least the
  // shortest duration.
  predicate EventSound(e: Env, s: Save, now: int) {
    s.eventId != "" ==>
      && C.EventIn(e.content.events, s.eventId).Some? && now < s.eventEndsAt
      && s.eventStartedAt + e.content.eventsConfig.minDurationSec <= s.eventEndsAt
  }

  lemma DurationsGrow(e: Env, s: Save)
    ensures EventDurations(e, s).0 >= e.content.eventsConfig.minDurationSec
    ensures e.content.eventsConfig.minDurationSec <= e.content.eventsConfig.maxDurationSec ==>
              EventDurations(e, s).0 <= EventDurations(e, s).1
  {
    hide EffectSum;
    var bonus := EffectSum(e.content.upgrades, s.upgrades, C.EventDuration) + Level(s.upgrades, "stargazer") * 10;
    var ec := e.content.eventsConfig;
    GrowthGrows(ec.minDurationSec, 100 + bonus);
    if ec.minDurationSec <= ec.maxDurationSec {
      MulMonotone(ec.minDurationSec, ec.maxDurationSec, 100 + bonus);
    }
  }

  // A running event is left alone. Otherwise nothing but draws may happen, or one event of
  // the content starts now, is reported, and lasts between the two durations of the moment.
  lemma EventRolled(e: Env, s: Save, elapsed: int, to: int, ev: Report)
    ensures var (r, ev') := RollEvent(e, s, elapsed, to, ev);
      && (s.eventId != "" && to < s.eventEndsAt ==> (r, ev') == (s, ev))
      && ((r == s.(draws := r.draws) && ev' == ev) || EventBegun(e, s, r, to, ev, ev'))
  {
    hide EventInterval, EventDurations, Roll, C.EventIn, EventBegun;
    if e.content.events != [] {
      var (lo, hi) := EventInterval(e, s);
      var s1 := RollRange(e, s, 0, hi - lo).1;
      DrawsOnly(e, s1);
      var s2 := Roll(e, s1, 10000).1;
      var (k, s3) := RollRange(e, s2, 0, |e.content.events| - 1);
      SameDurations(e, s, s3);
      var (shortest, longest) := EventDurations(e, s);
      var (extra, s4) := RollRange(e, s3, 0, longest - shortest);
      BeginsAs(e, s, s4, k, extra, to, ev);
    }
  }

  lemma BeginsAs(e: Env, s: Save, t: Save, k: nat, extra: int, to: int, ev: Report)
    requires k < |e.content.events| && t == s.(draws := t.draws)
    requires var (shortest, longest) := EventDurations(e, s); 0 <= extra <= Max(longest - shortest, 0)
    ensures var id := e.content.events[k].id;
      EventBegun(e, s, t.(eventId := id, eventStartedAt := to, eventEndsAt := to + EventDurations(e, s).0 + extra), to,
                 ev, ev.(eventStarted := id))
  {
    hide EventDurations, C.EventIn;
    EventFound(e.content.events, k);
  }

  predicate EventBegun(e: Env, s: Save, r: Save, to: int, ev: Report, ev': Report) {
    var (shortest, longest) := EventDurations(e, s);
    && r == s.(draws := r.draws, eventId := r.eventId, eventStartedAt := to, eventEndsAt := r.eventEndsAt)
    && ev' == ev.(eventStarted := r.eventId) && C.EventIn(e.content.events, r.eventId).Some?
    && to + shortest <= r.eventEndsAt <= to + Max(shortest, longest)
  }

  lemma DrawsOnly(e: Env, s: Save)
    ensures Roll(e, s, 10000).1 == s.(draws := s.draws + 1)
  {
  }

  lemma SameDurations(e: Env, s: Save, t: Save)
    requires t == s.(draws := t.draws)
    ensures EventDurations(e, t) == EventDurations(e, s)
  {
  }

  // ---- Parcels ----

  // Time brings at most one parcel, only when none waits, stamped with the moment and
  // reported; it takes none away.
  predicate ParcelRolled(s: Save, r: Save, to: int, arrived: bool) {
    if s.giftPending then r.giftPending && r.giftArrivedAt == s.giftArrivedAt && !arrived
    else r.giftPending == arrived && r.giftArrivedAt == if arrived then to else s.giftArrivedAt
  }

  lemma ChanceAtMost(elapsed: int, interval: int)
    requires elapsed >= 0 && interval >= 1
    ensures elapsed * 10000 / interval >= 10000 <==> elapsed >= interval
  {
    if elapsed >= interval {
      MulMonotone(interval, elapsed, 10000);
      DivisionBound(9999, interval, elapsed * 10000);
    } else {
      DivisionBound(10000, interval, elapsed * 10000);
    }
  }

  // ---- One Advance ----

  lemma RollIsSound(e: Env, s: Save, elapsed: int, to: int, ev: Report)
    requires EventSound(e, s, to)
    ensures var (r, ev') := RollEvent(e, s, elapsed, to, ev);
      && EventSound(e, r, to) && r.giftPending == s.giftPending && r.giftArrivedAt == s.giftArrivedAt
      && r.plots == s.plots && ev'.giftArrived == ev.giftArrived
  {
    hide RollEvent, EventDurations;
    EventRolled(e, s, elapsed, to, ev);
    DurationsGrow(e, s);
  }

  lemma ParcelIsRolled(e: Env, s: Save, elapsed: int, online: bool, to: int, ev: Report)
    requires EventSound(e, s, to) && !ev.giftArrived
    ensures var (r, ev') := RollGift(e, s, elapsed, online, to, ev);
      EventSound(e, r, to) && ParcelRolled(s, r, to, ev'.giftArrived) && r.plots == s.plots
  {
    hide GiftChance, Roll, C.EventIn;
    DrawsOnly(e, s);
  }

  // The save once a denied or finished event is cleared.
  function Expired(s: Save, to: int): Save {
    var s1 := if BlocksEvents(s) && s.eventId != "" then ClearEvent(s) else s;
    if s1.eventId != "" && to >= s1.eventEndsAt then ClearEvent(s1) else s1
  }

  lemma ExpiryIsSound(e: Env, s: Save, to: int)
    requires EventSound(e, s, s.updatedAt)
    ensures EventSound(e, Expired(s, to), to) && SameParcel(s, Expired(s, to))
  {
    hide BlocksEvents, ClearEvent;
    Cleared(s);
    Cleared(if BlocksEvents(s) && s.eventId != "" then ClearEvent(s) else s);
  }

  lemma Cleared(s: Save)
    ensures ClearEvent(s).eventId == "" && SameParcel(s, ClearEvent(s))
  {
  }

  predicate SameParcel(s: Save, r: Save) {
    r.giftPending == s.giftPending && r.giftArrivedAt == s.giftArrivedAt && r.plots == s.plots
  }

  lemma ParcelCarried(s: Save, t: Save, r: Save, to: int, arrived: bool)
    requires SameParcel(s, t) && ParcelRolled(t, r, to, arrived)
    ensures ParcelRolled(s, r, to, arrived)
  {
  }

  lemma ArrivalsAreSound(e: Env, s: Save, to: int)
    requires to > s.updatedAt && EventSound(e, s, s.updatedAt)
    ensures var (r, ev) := Arrivals(e, s, to);
      && EventSound(e, r, to) && ParcelRolled(s, r, to, ev.giftArrived) && r.plots == s.plots
  {
    hide RollEvent, RollGift, BlocksEvents, BlocksGifts, EventSound, ParcelRolled, ClearEvent;
    var elapsed := to - s.updatedAt;
    var online := elapsed <= ONLINE_THRESHOLD;
    var ev := NoReport.(elapsed := elapsed);
    var s1 := if BlocksEvents(s) && s.eventId != "" then ClearEvent(s) else s;
    var ev2 := if s1.eventId != "" && to >= s1.eventEndsAt then ev.(eventEnded := s1.eventId) else ev;
    var s2 := Expired(s, to);
    ExpiryIsSound(e, s, to);
    RollIsSound(e, s2, elapsed, to, ev2);
    var (s3, ev3) := if online && !BlocksEvents(s2) then RollEvent(e, s2, elapsed, to, ev2) else (s2, ev2);
    ParcelIsRolled(e, s3, elapsed, online, to, ev3);
    NothingRolled(s3, to);
    ParcelCarried(s, s3, Arrivals(e, s, to).0, to, Arrivals(e, s, to).1.giftArrived);
  }

  lemma NothingRolled(s: Save, to: int)
    ensures ParcelRolled(s, s, to, false)
  {
  }

  lemma {:induction false} DropsReportNoParcel(e: Env, s: Save, i: nat, drops: nat, ev: Report)
    ensures FillPouches(e, s, i, drops, ev).1.giftArrived == ev.giftArrived
    decreases |s.pouches| - i
  {
    hide DropsFor;
    if i < |s.pouches| {
      var (gained, t) := DropsFor(e, s, drops);
      DropsReportNoParcel(e, t.(pouches := t.pouches[i := SatAdd(t.pouches[i], gained)]), i + 1, drops,
                          ev.(scarecrowCoins := SatAdd(ev.scarecrowCoins, gained)));
    }
  }

  lemma ClockReportsNoParcel(e: Env, s: Save, elapsed: int, online: bool, ev: Report)
    requires elapsed >= 0
    ensures AdvanceScarecrows(e, s, elapsed, online, ev).1.giftArrived == ev.giftArrived
  {
    hide FillPouches, ClockTarget, ClockRate;
    if !ScarecrowsIdle(e, s) {
      var clock := SatAdd(Max(s.scarecrowClock, 0), SatMul(elapsed, ClockRate(e, online)));
      if clock / ClockTarget(e) > 0 {
        DropsReportNoParcel(e, s.(scarecrowClock := clock % ClockTarget(e)), 0, clock / ClockTarget(e), ev);
      }
    }
  }

  lemma {:induction false} CyclesReportNoParcel(
    e: Env, s: Save, i: nat, crop: C.Crop, grow: C.pos, matureAt: int, cycles: nat, to: int, ev: Report)
    requires i < |s.plots|
    ensures Cycles(e, s, i, crop, grow, matureAt, cycles, to, ev).1.giftArrived == ev.giftArrived
    decreases Max(to - matureAt + 1, 0)
  {
    hide Reap, GrowSeconds, CanBatch, HarvestPayout, Credit, ExpectedPayout, SeedCost, Unlocked, SeasonalPlantable, Replant;
    if matureAt <= to && cycles < AUTO_CYCLE_CAP {
      var (t, ev', next) := HarvestOnce(e, s, i, crop, matureAt, to, ev);
      TurnReportsNoParcel(e, s, i, crop, matureAt, to, ev);
      if next.Some? {
        var g := if next.value.id != crop.id then GrowSeconds(e, t, next.value) else grow;
        CyclesReportNoParcel(e, t, i, next.value, g, matureAt + g, cycles + 1, to, ev');
      }
    }
  }

  lemma TurnReportsNoParcel(e: Env, s: Save, i: nat, crop: C.Crop, matureAt: int, to: int, ev: Report)
    requires i < |s.plots|
    ensures HarvestOnce(e, s, i, crop, matureAt, to, ev).1.giftArrived == ev.giftArrived
  {
    hide HarvestPayout, Credit, SeedCost, Unlocked, SeasonalPlantable;
  }

  lemma {:induction false} PlotsReportNoParcel(e: Env, s: Save, i: nat, from: int, to: int, online: bool, ev: Report)
    ensures SettlePlots(e, s, i, from, to, online, ev).1.giftArrived == ev.giftArrived
    decreases |s.plots| - i
  {
    hide Cycles, GrowSeconds, CritterCount, Roll;
    if i < |s.plots| {
      var (t, ev') := SettlePlot(e, s, i, from, to, online, ev);
      var found := C.CropIn(e.content.crops, s.plots[i].crop);
      if found.Some? {
        var grow := GrowSeconds(e, s, found.value);
        CyclesReportNoParcel(e, s, i, found.value, grow, s.plots[i].plantedAt + grow, 0, to, ev);
      }
      PlotsReportNoParcel(e, t, i + 1, from, to, online, ev');
    }
  }

  predicate LuckSound(e: Env, s: Save) {
    EventSound(e, s, s.updatedAt) && VisitorsSound(e, s.plots) && (!s.giftPending ==> s.giftArrivedAt == 0)
  }

  lemma AdvanceIsSound(e: Env, s: Save, to: int)
    requires LuckSound(e, s)
    ensures var (r, ev) := Advance(e, s, to);
      LuckSound(e, r) && ParcelRolled(s, r, to, ev.giftArrived)
  {
    hide Arrivals, AdvanceScarecrows, SettlePlots, CheckAchievements, VisitorsSound;
    if to > s.updatedAt {
      var elapsed := to - s.updatedAt;
      var online := elapsed <= ONLINE_THRESHOLD;
      var (t, ev) := Arrivals(e, s, to);
      ArrivalsAreSound(e, s, to);
      var (s1, ev1) := AdvanceScarecrows(e, t, elapsed, online, ev);
      ClockReportsNoParcel(e, t, elapsed, online, ev);
      SettlingAllIsSound(e, s1, 0, s.updatedAt, to, online, ev1);
      PlotsReportNoParcel(e, s1, 0, s.updatedAt, to, online, ev1);
    }
  }

  // ---- Intents ----

  // An intent brings nothing: visitors only leave, and the event goes on as it was or is
  // cleared.
  predicate BringsNothing(s: Save, r: Save) {
    && OnlyLeave(s.plots, r.plots)
    && ((r.eventId == s.eventId && r.eventStartedAt == s.eventStartedAt && r.eventEndsAt == s.eventEndsAt
         && r.updatedAt == s.updatedAt)
        || r.eventId == "")
  }

  predicate ParcelStays(s: Save, r: Save) {
    r.giftPending == s.giftPending && r.giftArrivedAt == s.giftArrivedAt
  }

  predicate ParcelGone(r: Save) { !r.giftPending && r.giftArrivedAt == 0 }

  // Redeeming and the resets of contracts take the parcel; nothing else touches it.
  predicate TakesParcel(a: Action) { a.RedeemGift? || a.StartContract? || a.AbandonContract? }

  predicate Ordinary(s: Save, r: Save) { BringsNothing(s, r) && ParcelStays(s, r) }

  lemma CreditIsOrdinary(s: Save, amount: int)
    ensures Ordinary(s, Credit(s, amount)) && Ordinary(s, CreditStarseeds(s, amount))
  {
  }

  lemma OrdinaryOn(s: Save, t: Save, r: Save)
    requires Ordinary(s, t) && Ordinary(t, r)
    ensures Ordinary(s, r)
  {
  }

  lemma {:induction false} CollectingIsOrdinary(s: Save, i: nat)
    ensures Ordinary(s, CollectFrom(s, i))
    decreases |s.pouches| - i
  {
    hide Credit, Ordinary;
    assert Ordinary(s, s) by { StillOrdinary(s); }
    if i < |s.pouches| {
      var o := DoCollectScarecrow(s, i);
      if o.Ok? {
        CollectOneIsOrdinary(s, i);
        CollectingIsOrdinary(o.value, i + 1);
        OrdinaryOn(s, o.value, CollectFrom(s, i));
      } else {
        CollectingIsOrdinary(s, i + 1);
      }
    }
  }

  lemma StillOrdinary(s: Save)
    ensures Ordinary(s, s)
  {
  }

  lemma CollectOneIsOrdinary(s: Save, i: int)
    ensures var o := DoCollectScarecrow(s, i); o.Ok? ==> Ordinary(s, o.value)
  {
    hide Credit;
    if 0 <= i < |s.pouches| {
      CreditIsOrdinary(s.(pouches := s.pouches[i := 0]), s.pouches[i]);
    }
  }

  lemma {:induction false} SowingIsOrdinary(s: Save, cands: seq<Candidate>, now: int)
    ensures Ordinary(s, SowAll(s, cands, now))
    decreases |cands|
  {
    hide Ordinary;
    if cands == [] {
      StillOrdinary(s);
    } else {
      SowOneIsOrdinary(s, cands[0], now);
      SowingIsOrdinary(Sow(s, cands[0], now), cands[1..], now);
      OrdinaryOn(s, Sow(s, cands[0], now), SowAll(s, cands, now));
    }
  }

  // Another plot in its place, with the visitor gone or the same.
  lemma TilledIsOrdinary(s: Save, r: Save, i: nat, plot: Plot)
    requires i < |s.plots| && r.plots == s.plots[i := plot] && (plot.critter == "" || plot.critter == s.plots[i].critter)
    requires SameWeather(s, r)
    ensures Ordinary(s, r)
  {
  }

  predicate SameWeather(s: Save, r: Save) {
    && r.eventId == s.eventId && r.eventStartedAt == s.eventStartedAt && r.eventEndsAt == s.eventEndsAt
    && r.updatedAt == s.updatedAt && r.giftPending == s.giftPending && r.giftArrivedAt == s.giftArrivedAt
  }

  lemma PayIsQuiet(s: Save, cost: int)
    ensures SameWeather(s, Pay(s, cost)) && Pay(s, cost).plots == s.plots
  {
  }

  lemma SowOneIsOrdinary(s: Save, c: Candidate, now: int)
    ensures Ordinary(s, Sow(s, c, now))
  {
    hide Ordinary;
    if s.coins < c.cost || c.plot >= |s.plots| {
      StillOrdinary(s);
    } else {
      TilledIsOrdinary(s, Sow(s, c, now), c.plot, Planted(s.plots[c.plot], c.crop, now));
    }
  }

  lemma HarvestIsOrdinary(e: Env, s: Save, i: int, now: int)
    ensures var o := DoHarvest(e, s, i, now); o.Ok? ==> Ordinary(s, o.value)
  {
    hide HarvestPayout, Credit, GrowSeconds;
    var o := DoHarvest(e, s, i, now);
    if o.Ok? {
      var (y, t) := HarvestPayout(e, s, C.CropIn(e.content.crops, s.plots[i].crop).value, now);
      CreditIsOrdinary(t, y.payout);
      CreditIsOrdinary(Credit(t, y.payout), y.discovery);
    }
  }

  lemma ShooIsOrdinary(e: Env, s: Save, i: int)
    ensures var o := DoShooCritter(e, s, i); o.Ok? ==> Ordinary(s, o.value)
  {
    hide Credit, SatMul;
    var o := DoShooCritter(e, s, i);
    if o.Ok? {
      var (base, t) := RollRange(e, s, e.content.critters.shooMin, e.content.critters.shooMax);
      CreditIsOrdinary(t.(plots := s.plots[i := s.plots[i].(critter := "")]),
        Quo(SatMul(base, I64(100 + I64(e.content.critters.rebirthBonusPct * ProgressionRebirths(s)))), 100));
    }
  }

  lemma PlantIsOrdinary(e: Env, s: Save, i: int, crop: string, now: int)
    ensures var o := DoPlant(e, s, i, crop, now); o.Ok? ==> Ordinary(s, o.value)
  {
    hide SeedCost, Unlocked, SeasonalPlantable, MercyPlantEligible, Ordinary, Pay;
    var o := DoPlant(e, s, i, crop, now);
    if o.Ok? {
      PayIsQuiet(s, SeedCost(e, s, C.CropIn(e.content.crops, crop).value));
      TilledIsOrdinary(s, o.value, i, Planted(s.plots[i], crop, now));
    }
  }

  lemma LandIsOrdinary(e: Env, s: Save, now: int, a: Action)
    requires a.BuyPlot? || a.BuyZone?
    ensures var o := Do(e, s, now, a); o.Ok? ==> Ordinary(s, o.value)
  {
    hide NextPlotCost, Unlocked;
  }

  lemma AutomatingIsOrdinary(e: Env, s: Save, i: int, kind: Automatic)
    ensures var o := DoUpgradePlotAuto(e, s, i, kind); o.Ok? ==> Ordinary(s, o.value)
  {
    hide PlotAutoHarvestCost, Ordinary, Pay, BlocksAutomation;
    var o := DoUpgradePlotAuto(e, s, i, kind);
    if o.Ok? {
      PayIsQuiet(s, PlotAutoHarvestCost(e, s));
      PayIsQuiet(s, e.content.automation.sowCost);
      TilledIsOrdinary(s, o.value, i, o.value.plots[i]);
    }
  }

  lemma QueueingIsOrdinary(e: Env, s: Save, i: int, crop: string)
    ensures var o := DoSetAutoSowCrop(e, s, i, crop); o.Ok? ==> Ordinary(s, o.value)
  {
    hide Unlocked, Ordinary, BlocksAutomation;
    var o := DoSetAutoSowCrop(e, s, i, crop);
    if o.Ok? {
      TilledIsOrdinary(s, o.value, i, o.value.plots[i]);
    }
  }

  lemma ShoppingIsOrdinary(e: Env, s: Save, now: int, a: Action)
    requires a.BuyMultiplier? || a.BuySeedUpgrade? || a.BuyUpgrade? || a.BuyScarecrow?
    ensures var o := Do(e, s, now, a); o.Ok? ==> Ordinary(s, o.value)
  {
    hide Unlocked, LevelCost, ScarecrowCost;
  }

  lemma SettingIsOrdinary(e: Env, s: Save, now: int, a: Action)
    requires a.SetNameStyle? || a.SetFarmName? || a.SetFlavor? || a.SetCritters?
    ensures var o := Do(e, s, now, a); o.Ok? ==> Ordinary(s, o.value)
  {
    hide StyleUnlocked;
  }

  lemma RebirthIsOrdinary(e: Env, s: Save, now: int)
    ensures var o := DoRebirth(e, s, now); o.Ok? ==> Ordinary(s, o.value)
  {
    hide CollectFrom, StartCoins, PrestigeGain, CanRebirth;
    CollectingIsOrdinary(s, 0);
  }

  lemma RedeemTakes(e: Env, s: Save)
    ensures var o := DoRedeemGift(e, s); o.Ok? ==> s.giftPending && BringsNothing(s, o.value) && ParcelGone(o.value)
  {
    hide Credit, CreditStarseeds, GiftCoins, FloorSqrt, Roll, Quo;
    var t := s.(giftPending := false, giftArrivedAt := 0);
    var rebirths := ProgressionRebirths(s);
    var (roll, v) := if rebirths >= 1 then Roll(e, t, 100) else (100, t);
    RollDraws(e, t);
    CreditIsOrdinary(v, FloorSqrt(Quo(v.runEarnings, e.content.prestige.divisor)) + 1 + rebirths);
    var (coins, u) := GiftCoins(e, v);
    CreditIsOrdinary(u, coins);
  }

  lemma ContractsTake(e: Env, s: Save, now: int, a: Action)
    requires a.StartContract? || a.AbandonContract?
    ensures var o := Do(e, s, now, a); o.Ok? ==> BringsNothing(s, o.value) && ParcelGone(o.value)
  {
    hide ContractsAvailable;
  }

  lemma DoBringsNothing(e: Env, s: Save, now: int, a: Action)
    ensures var o := Do(e, s, now, a);
      o.Ok? ==> BringsNothing(s, o.value) && (if TakesParcel(a) then ParcelGone(o.value) else ParcelStays(s, o.value))
                && (a.RedeemGift? ==> s.giftPending)
  {
    hide DoPlant, DoHarvest, DoBuyPlot, DoBuyZone, DoBuyMultiplier, DoBuySeedUpgrade, DoUpgradePlotAuto,
      DoSetAutoSowCrop, DoBuyUpgrade, DoRedeemGift, DoCollectScarecrow, CollectFrom, DoBuyScarecrow,
      DoShooCritter, DoRebirth, DoStartContract, DoAbandonContract, DoSetNameStyle, DoSetFarmName, SowAll;
    match a
    case Harvest(i) => HarvestIsOrdinary(e, s, i, now);
    case ReplantAll => SowingIsOrdinary(s, DearestFirst(Candidates(e, s, |s.plots|, now)), now);
    case RedeemGift => RedeemTakes(e, s);
    case CollectScarecrow(i) => CollectOneIsOrdinary(s, i);
    case CollectScarecrows => CollectingIsOrdinary(s, 0);
    case ShooCritter(i) => ShooIsOrdinary(e, s, i);
    case Rebirth => RebirthIsOrdinary(e, s, now);
    case StartContract(_) => ContractsTake(e, s, now, a);
    case AbandonContract => ContractsTake(e, s, now, a);
    case Plant(i, crop) => PlantIsOrdinary(e, s, i, crop, now);
    case BuyPlot => LandIsOrdinary(e, s, now, a);
    case BuyZone(_) => LandIsOrdinary(e, s, now, a);
    case UpgradePlotAuto(i, kind) => AutomatingIsOrdinary(e, s, i, kind);
    case SetAutoSowCrop(i, crop) => QueueingIsOrdinary(e, s, i, crop);
    case BuyMultiplier(_) => ShoppingIsOrdinary(e, s, now, a);
    case BuySeedUpgrade(_) => ShoppingIsOrdinary(e, s, now, a);
    case BuyUpgrade(_) => ShoppingIsOrdinary(e, s, now, a);
    case BuyScarecrow => ShoppingIsOrdinary(e, s, now, a);
    case _ => SettingIsOrdinary(e, s, now, a);
  }

  // ---- Runs ----

  lemma ActIsSound(e: Env, s: Save, now: int, a: Action)
    requires LuckSound(e, s)
    ensures LuckSound(e, Act(e, s, now, a).0)
  {
    hide Do, VisitorsSound, OnlyLeave, CheckAchievements;
    var o := Do(e, s, now, a);
    if o.Ok? {
      DoBringsNothing(e, s, now, a);
      LeavingIsSound(e, s.plots, o.value.plots);
    }
  }

  // After any run from a new save: a running event is one of the content's, has not
  // ended, and lasts at least the shortest duration; every visitor is a known one and
  // their number is within a positive cap; and no stamp is left of a parcel that is gone.
  lemma {:induction false} LuckHolds(e: Env, s: Save, moves: seq<Move>)
    requires LuckSound(e, s)
    ensures LuckSound(e, PlayAll(e, s, moves))
    decreases |moves|
  {
    hide LuckSound, Advance, Act;
    if moves != [] {
      AdvanceIsSound(e, s, moves[0].now);
      if moves[0].Intent? {
        ActIsSound(e, Advance(e, s, moves[0].now).0, moves[0].now, moves[0].action);
      }
      LuckHolds(e, Play(e, s, moves[0]), moves[1..]);
    }
  }

  lemma ANewSaveIsSound(e: Env, seed: nat, now: int)
    ensures LuckSound(e, New(e, seed, now))
  {
    LeavingIsSound(e, [], New(e, seed, now).plots);
  }

  function One(b: bool): nat { if b then 1 else 0 }

  // Parcels a run's Advances report.
  function Reported(e: Env, s: Save, moves: seq<Move>): nat
    decreases |moves|
  {
    if moves == [] then 0
    else One(Advance(e, s, moves[0].now).1.giftArrived) + Reported(e, Play(e, s, moves[0]), moves[1..])
  }

  // Accepted intents of the run that took a waiting parcel: the redeemed ones, or the
  // ones a contract's reset threw away.
  predicate Takes(e: Env, s: Save, m: Move, redeemed: bool) {
    && m.Intent? && TakesParcel(m.action) && m.action.RedeemGift? == redeemed
    && var t := Advance(e, s, m.now).0; t.giftPending && Do(e, t, m.now, m.action).Ok?
  }

  function Taken(e: Env, s: Save, moves: seq<Move>, redeemed: bool): nat
    decreases |moves|
  {
    if moves == [] then 0 else One(Takes(e, s, moves[0], redeemed)) + Taken(e, Play(e, s, moves[0]), moves[1..], redeemed)
  }

  lemma PlayMovesParcels(e: Env, s: Save, m: Move)
    requires LuckSound(e, s)
    ensures LuckSound(e, Play(e, s, m))
    ensures One(s.giftPending) + One(Advance(e, s, m.now).1.giftArrived)
         == One(Takes(e, s, m, true)) + One(Takes(e, s, m, false)) + One(Play(e, s, m).giftPending)
  {
    hide LuckSound, Advance, Do, BringsNothing, CheckAchievements;
    AdvanceIsSound(e, s, m.now);
    if m.Intent? {
      var t := Advance(e, s, m.now).0;
      ActIsSound(e, t, m.now, m.action);
      DoBringsNothing(e, t, m.now, m.action);
    }
  }

  // Over any run: the parcel waiting at first and those reported are the redeemed ones,
  // those a contract's reset threw away, and the one still waiting. None is redeemed
  // twice, and time alone loses none.
  lemma {:induction false} ParcelsAreConserved(e: Env, s: Save, moves: seq<Move>)
    requires LuckSound(e, s)
    ensures One(s.giftPending) + Reported(e, s, moves)
         == Taken(e, s, moves, true) + Taken(e, s, moves, false) + One(PlayAll(e, s, moves).giftPending)
    decreases |moves|
  {
    hide LuckSound, Advance, Play, Takes;
    if moves != [] {
      PlayMovesParcels(e, s, moves[0]);
      ParcelsAreConserved(e, Play(e, s, moves[0]), moves[1..]);
    }
  }

  // ---- When a parcel is certain ----

  function WithDice(e: Env, dice: (nat, nat) -> nat): Env {
    e.(dice := dice)
  }

  predicate Certain(e: Env, dice: (nat, nat) -> nat, s: Save, to: int) {
    Advance(WithDice(e, dice), s, to).0.giftPending
  }

  lemma AwayArrivals(e: Env, s: Save, to: int)
    requires to - s.updatedAt > ONLINE_THRESHOLD && !s.giftPending && !BlocksGifts(s)
    ensures Arrivals(e, s, to).0.giftPending
      <==> e.dice(s.seed, s.draws) % 10000 < GiftChance(e, Expired(s, to), to - s.updatedAt, false)
  {
    hide GiftChance, RollEvent, RollGift, BlocksEvents, ClearEvent, BlocksGifts;
    ClearedRolls(s);
    ClearedRolls(if BlocksEvents(s) && s.eventId != "" then ClearEvent(s) else s);
    var elapsed := to - s.updatedAt;
    var t := Expired(s, to);
    var ev := Arrivals(e, s, to).1.(giftArrived := false);
    GiftIsRolled(e, t, elapsed, to, ev);
    GiftIgnoresReport(e, t, elapsed, to, ev);
  }

  lemma GiftIsRolled(e: Env, s: Save, elapsed: int, to: int, ev: Report)
    requires !s.giftPending
    ensures RollGift(e, s, elapsed, false, to, ev).0.giftPending
      <==> e.dice(s.seed, s.draws) % 10000 < GiftChance(e, s, elapsed, false)
  {
    hide GiftChance;
  }

  lemma GiftIgnoresReport(e: Env, s: Save, elapsed: int, to: int, ev: Report)
    ensures forall ev': Report :: RollGift(e, s, elapsed, false, to, ev').0 == RollGift(e, s, elapsed, false, to, ev).0
  {
    hide GiftChance;
  }

  lemma ClearedRolls(s: Save)
    ensures var r := ClearEvent(s);
      r.giftPending == s.giftPending && r.draws == s.draws && r.seed == s.seed && (BlocksGifts(r) <==> BlocksGifts(s))
  {
  }

  lemma AwayChance(e: Env, s: Save, to: int)
    requires to - s.updatedAt > ONLINE_THRESHOLD && !s.giftPending && !BlocksGifts(s)
    ensures var r := Advance(e, s, to).0;
      r.giftPending <==> e.dice(s.seed, s.draws) % 10000 < GiftChance(e, Expired(s, to), to - s.updatedAt, false)
  {
    hide Arrivals, AdvanceScarecrows, SettlePlots, CheckAchievements, GiftChance, Expired;
    AwayArrivals(e, s, to);
  }

  // After an absence a parcel waits whatever is rolled exactly when one already did or
  // the absence was at least the offline interval.
  lemma AParcelIsCertainExactlyWhen(e: Env, s: Save, to: int)
    requires to - s.updatedAt > ONLINE_THRESHOLD && !BlocksGifts(s) && LuckSound(e, s)
    ensures (forall dice: (nat, nat) -> nat :: Certain(e, dice, s, to))
            <==> s.giftPending || to - s.updatedAt >= e.content.gifts.offlineIntervalSec
  {
    hide Advance, GiftChance, LuckSound;
    var elapsed := to - s.updatedAt;
    var interval := e.content.gifts.offlineIntervalSec;
    ChanceAtMost(elapsed, interval);
    if s.giftPending {
      forall dice: (nat, nat) -> nat ensures Certain(e, dice, s, to) {
        SoundWhateverTheDice(e, dice, s);
        AdvanceIsSound(WithDice(e, dice), s, to);
      }
    } else {
      forall dice: (nat, nat) -> nat
        ensures Certain(e, dice, s, to) <==> dice(s.seed, s.draws) % 10000 < Min(elapsed * 10000 / interval, 10000)
      {
        AwayChance(WithDice(e, dice), s, to);
        ChanceAway(WithDice(e, dice), Expired(s, to), elapsed);
      }
      assert Certain(e, (a: nat, b: nat) => 9999, s, to) <==> 9999 < Min(elapsed * 10000 / interval, 10000);
    }
  }

  lemma SoundWhateverTheDice(e: Env, dice: (nat, nat) -> nat, s: Save)
    requires LuckSound(e, s)
    ensures LuckSound(WithDice(e, dice), s)
  {
  }

  lemma ChanceAway(e: Env, s: Save, elapsed: int)
    ensures GiftChance(e, s, elapsed, false) == Min(elapsed * 10000 / e.content.gifts.offlineIntervalSec, 10000)
  {
  }

  // ---- What a parcel holds ----

  function GiftBase(e: Env, s: Save): int {
    var g := e.content.gifts;
    Clamp(FloorSqrt(Quo(s.runEarnings, 10)) + 10 + ProgressionRebirths(s) * 50, g.coinFloor, g.coinCeiling)
  }

  // Never more than the ceiling, never less than the floor unless that is above the
  // ceiling, and then within a fifth of the base either way.
  lemma GiftCoinsAreBounded(e: Env, s: Save)
    ensures var g, base, coins := e.content.gifts, GiftBase(e, s), GiftCoins(e, s).0;
      && Min(g.coinFloor, g.coinCeiling) <= coins <= g.coinCeiling
      && (g.coinFloor <= g.coinCeiling && base >= 0 ==> base - base / 5 <= coins <= base + base / 5)
  {
    hide FloorSqrt, Roll;
  }

  function GiftStarseeds(e: Env, s: Save): int {
    FloorSqrt(Quo(s.runEarnings, e.content.prestige.divisor)) + 1 + ProgressionRebirths(s)
  }

  // A redeemed parcel pays either Starseeds, only after a rebirth, or coins between the
  // floor and the ceiling, saturating; a reward below nothing pays nothing.
  lemma RedeemPays(e: Env, s: Save)
    requires 0 <= s.coins <= MAX && e.content.gifts.coinCeiling <= MAX
    ensures var (o, g) := (DoRedeemGift(e, s), e.content.gifts);
      && (o.Ok? <==> s.giftPending && !BlocksGifts(s))
      && (o.Ok? ==>
            || (ProgressionRebirths(s) >= 1 && o.value.coins == s.coins
                && o.value.starseeds == SatAdd(s.starseeds, GiftStarseeds(e, s)))
            || (o.value.starseeds == s.starseeds
                && SatAdd(s.coins, Max(Min(g.coinFloor, g.coinCeiling), 0)) <= o.value.coins
                   <= SatAdd(s.coins, Max(g.coinCeiling, 0))))
  {
    hide DoRedeemGift, GiftCoins, GiftStarseeds, Credit, CreditStarseeds, BlocksGifts, FloorSqrt;
    if s.giftPending && !BlocksGifts(s) {
      var v := RedeemIs(e, s);
      GiftCoinsAreBounded(e, v);
      CreditPays(GiftCoins(e, v).1, GiftCoins(e, v).0);
      StarseedsPay(v, GiftStarseeds(e, s));
    } else {
      RedeemRefused(e, s);
    }
  }

  lemma RedeemRefused(e: Env, s: Save)
    requires !s.giftPending || BlocksGifts(s)
    ensures DoRedeemGift(e, s).Err?
  {
  }

  // The parcel opened: the save its reward is credited to.
  lemma RedeemIs(e: Env, s: Save) returns (v: Save)
    requires s.giftPending && !BlocksGifts(s)
    ensures v == s.(giftPending := false, giftArrivedAt := 0, draws := v.draws)
    ensures var o := DoRedeemGift(e, s);
      (o == Ok(CreditStarseeds(v, GiftStarseeds(e, s))) && ProgressionRebirths(s) >= 1)
      || o == Ok(Credit(GiftCoins(e, v).1, GiftCoins(e, v).0))
    ensures ProgressionRebirths(s) >= 1 ==> GiftStarseeds(e, s) >= 1
  {
    hide GiftCoins, FloorSqrt, Roll, Quo, Credit, CreditStarseeds;
    var t := s.(giftPending := false, giftArrivedAt := 0);
    RollDraws(e, t);
    v := if ProgressionRebirths(s) >= 1 then Roll(e, t, 100).1 else t;
  }

  lemma CreditPays(s: Save, amount: int)
    requires 0 <= s.coins <= MAX
    ensures Credit(s, amount).coins == SatAdd(s.coins, Max(amount, 0)) && Credit(s, amount).starseeds == s.starseeds
  {
    hide Complete;
  }

  lemma StarseedsPay(s: Save, amount: int)
    ensures CreditStarseeds(s, amount).coins == s.coins
    ensures amount > 0 ==> CreditStarseeds(s, amount).starseeds == SatAdd(s.starseeds, amount)
  {
    hide Complete;
  }
}
