// The shared drop clock conserves time, and every pouch gets its drops.
module Scarecrows {
  import opened Common
  import opened Money
  import opened FarmState
  import opened FarmAdvance
  import opened FastPath
  import opened Passage
  import opened Campaign
  import C = Content

  // The clock time an advance is worth: seconds, slowed-down seconds when live.
  function Owed(e: Env, s: Save, to: int): int {
    (to - s.updatedAt) * ClockRate(e, to - s.updatedAt <= ONLINE_THRESHOLD)
  }

  function DropsIn(e: Env, s: Save, to: int): int {
    if ClockTarget(e) < 1 then 0 else (s.scarecrowClock + Owed(e, s, to)) / ClockTarget(e)
  }

  // ---- One drop ----

  // Neither multiplier leaves int64.
  predicate MultipliersFit(e: Env, s: Save) {
    && e.content.scarecrow.synergyPct * (Max(|s.pouches|, 1) - 1) <= MAX - 100
    && ProgressionRebirths(s) >= 0 && e.content.scarecrow.rebirthBonusPct * ProgressionRebirths(s) <= MAX - 100
  }

  function Low(e: Env, s: Save): int { ScarecrowDrop(e, s, e.content.scarecrow.coinsMin) }

  function High(e: Env, s: Save): int { ScarecrowDrop(e, s, e.content.scarecrow.coinsMax) }

  lemma MultipliersPositive(e: Env, s: Save)
    requires MultipliersFit(e, s)
    ensures Synergy(e, s) >= 100 && RebirthBoost(e, s) >= 100
  {
    hide I64;
    var n := if |s.pouches| < 1 then 1 else |s.pouches|;
    var synergy := e.content.scarecrow.synergyPct * (n - 1);
    var rebirth := e.content.scarecrow.rebirthBonusPct * ProgressionRebirths(s);
    MulMonotone(0, e.content.scarecrow.synergyPct, n - 1);
    MulMonotone(0, e.content.scarecrow.rebirthBonusPct, ProgressionRebirths(s));
    FitsI64(synergy);
    FitsI64(100 + synergy);
    FitsI64(rebirth);
    FitsI64(100 + rebirth);
  }

  lemma SatMulMonotone(a: int, b: int, c: int)
    requires 0 <= a <= b && c >= 0
    ensures 0 <= SatMul(a, c) <= SatMul(b, c) <= MAX
  {
    SatMulCaps(a, c);
    SatMulCaps(b, c);
    MulMonotone(a, b, c);
    MulMonotone(0, a, c);
  }

  lemma QuoMonotone(a: int, b: int, d: int)
    requires 0 <= a <= b && d > 0
    ensures 0 <= Quo(a, d) <= Quo(b, d) <= b
  {
    DivMod(a, d);
    DivMod(b, d);
    if a / d > b / d {
      MulMonotone(b / d + 1, a / d, d);
      Distribute(b / d, 1, d);
    }
    MulMonotone(1, d, b / d);
  }

  // A dearer roll never drops fewer coins.
  lemma DropMonotone(e: Env, s: Save, a: int, b: int)
    requires MultipliersFit(e, s) && 0 <= a <= b
    ensures 0 <= ScarecrowDrop(e, s, a) <= ScarecrowDrop(e, s, b) <= MAX
  {
    hide Synergy, RebirthBoost, SatMul, Quo;
    MultipliersPositive(e, s);
    SatMulMonotone(a, b, Synergy(e, s));
    SatMulMonotone(SatMul(a, Synergy(e, s)), SatMul(b, Synergy(e, s)), RebirthBoost(e, s));
    QuoMonotone(SatMul(SatMul(a, Synergy(e, s)), RebirthBoost(e, s)),
                SatMul(SatMul(b, Synergy(e, s)), RebirthBoost(e, s)), 10_000);
  }

  // ---- One pouch ----

  // x is base after n drops of between lo and hi coins each, saturating.
  predicate Between(base: int, x: int, n: nat, lo: nat, hi: nat) {
    Min(base + Times(n, lo), MAX) <= x <= Min(base + Times(n, hi), MAX)
  }

  // Draws leave every multiplier alone.
  lemma DrawsKeepDrops(e: Env, s: Save, t: Save, base: int)
    requires t == s.(draws := t.draws)
    ensures ScarecrowDrop(e, t, base) == ScarecrowDrop(e, s, base)
  {
  }

  lemma {:induction false} RollsBetween(e: Env, s: Save, lo: nat, hi: nat, n: nat, gained: int, k: nat)
    requires MultipliersFit(e, s) && lo == Low(e, s) && hi == High(e, s) && Between(0, gained, k, lo, hi)
    ensures Between(0, RollDrops(e, s, n, gained).0, n + k, lo, hi)
    decreases n
  {
    hide ScarecrowDrop;
    if n > 0 {
      var sc := e.content.scarecrow;
      var (base, t) := RollRange(e, s, sc.coinsMin, sc.coinsMax);
      DrawsKeepDrops(e, s, t, sc.coinsMin);
      DrawsKeepDrops(e, s, t, sc.coinsMax);
      DropMonotone(e, t, sc.coinsMin, base);
      DropMonotone(e, t, base, sc.coinsMax);
      RollsBetween(e, t, lo, hi, n - 1, SatAdd(gained, ScarecrowDrop(e, t, base)), k + 1);
    }
  }

  lemma DropsBetween(e: Env, s: Save, lo: nat, hi: nat, drops: nat)
    requires MultipliersFit(e, s) && lo == Low(e, s) && hi == High(e, s)
    ensures Between(0, DropsFor(e, s, drops).0, drops, lo, hi)
  {
    hide ScarecrowDrop, RollDrops, Times;
    assert Times(0, lo) == 0 == Times(0, hi) by { NoTimes(lo); NoTimes(hi); }
    var sc := e.content.scarecrow;
    var rolled := if drops < SCARECROW_ROLL_CAP then drops else SCARECROW_ROLL_CAP;
    RollsBetween(e, s, lo, hi, rolled, 0, 0);
    var (gained, t) := RollDrops(e, s, rolled, 0);
    if drops > rolled {
      var mean := (sc.coinsMin + sc.coinsMax) / 2;
      DrawsKeepDrops(e, s, t, sc.coinsMin);
      DrawsKeepDrops(e, s, t, sc.coinsMax);
      DropMonotone(e, t, sc.coinsMin, mean);
      DropMonotone(e, t, mean, sc.coinsMax);
      TailBetween(gained, rolled, drops - rolled, lo, ScarecrowDrop(e, t, mean), hi);
    }
  }

  lemma NoTimes(x: nat)
    ensures Times(0, x) == 0
  {
  }

  lemma TailBetween(gained: int, n: nat, rest: nat, lo: nat, mean: nat, hi: nat)
    requires Between(0, gained, n, lo, hi) && lo <= mean <= hi
    ensures Between(0, SatAdd(gained, SatMul(mean, rest)), n + rest, lo, hi)
  {
    hide Times, SatMul;
    SatMulCaps(mean, rest);
    TimesIsProduct(rest, mean);
    assert mean * rest == rest * mean;
    TimesMonotone(rest, lo, mean);
    TimesMonotone(rest, mean, hi);
    TimesPlus(n, rest, lo);
    TimesPlus(n, rest, hi);
  }

  lemma {:induction false} TimesPlus(m: nat, n: nat, x: nat)
    ensures Times(m + n, x) == Times(m, x) + Times(n, x)
  {
    if m > 0 {
      TimesPlus(m - 1, n, x);
    }
  }

  // Every pouch from i on gets all the drops; those before i are done.
  lemma {:induction false} PouchesFill(e: Env, s: Save, lo: nat, hi: nat, i: nat, drops: nat, ev: Report)
    requires MultipliersFit(e, s) && lo == Low(e, s) && hi == High(e, s)
    requires forall j :: 0 <= j < |s.pouches| ==> Coins(s.pouches[j])
    ensures var r := FillPouches(e, s, i, drops, ev).0;
      && (forall j :: 0 <= j < |s.pouches| && j < i ==> r.pouches[j] == s.pouches[j])
      && (forall j :: i <= j < |s.pouches| ==> Between(s.pouches[j], r.pouches[j], drops, lo, hi))
    decreases |s.pouches| - i
  {
    hide ScarecrowDrop, DropsFor, Between;
    if i < |s.pouches| {
      DropsBetween(e, s, lo, hi, drops);
      var (gained, t) := DropsFor(e, s, drops);
      PouchBetween(s.pouches[i], gained, drops, lo, hi);
      var u := t.(pouches := t.pouches[i := SatAdd(t.pouches[i], gained)]);
      SameDrops(e, s, u);
      PouchBounded(s.pouches[i], drops, gained, lo, hi);
      PouchesFill(e, u, lo, hi, i + 1, drops, ev.(scarecrowCoins := SatAdd(ev.scarecrowCoins, gained)));
    }
  }

  lemma PouchBetween(pouch: int, gained: int, n: nat, lo: nat, hi: nat)
    requires Between(0, gained, n, lo, hi) && Coins(pouch)
    ensures Between(pouch, SatAdd(pouch, gained), n, lo, hi)
  {
  }

  lemma PouchBounded(pouch: int, n: nat, gained: int, lo: nat, hi: nat)
    requires Between(0, gained, n, lo, hi) && Coins(pouch)
    ensures Coins(SatAdd(pouch, gained))
  {
  }

  lemma SameDrops(e: Env, s: Save, u: Save)
    requires u == s.(draws := u.draws, pouches := u.pouches) && |u.pouches| == |s.pouches|
    ensures Low(e, u) == Low(e, s) && High(e, u) == High(e, s) && (MultipliersFit(e, u) <==> MultipliersFit(e, s))
  {
  }

  // ---- One advance ----

  predicate PouchesHold(s: Save) {
    forall j :: 0 <= j < |s.pouches| ==> Coins(s.pouches[j])
  }

  // Scarecrows at work, and a clock with room for what is owed.
  predicate Watching(e: Env, s: Save, owed: int) {
    !ScarecrowsIdle(e, s) && MultipliersFit(e, s) && PouchesHold(s) && 0 <= s.scarecrowClock <= MAX - owed
  }

  // Every pouch got that many drops, each worth between the lowest and the highest roll.
  predicate PouchesGot(e: Env, s: Save, r: Save, drops: int) {
    && drops >= 0 && Low(e, s) >= 0 && High(e, s) >= 0 && |r.pouches| == |s.pouches|
    && forall j :: 0 <= j < |s.pouches| ==> Between(s.pouches[j], r.pouches[j], drops, Low(e, s), High(e, s))
  }

  // The clock took in what it was owed and gave out whole drops.
  predicate Turned(e: Env, s: Save, r: Save, owed: int) {
    ClockTarget(e) > 0 &&
    var sum := s.scarecrowClock + owed;
    sum >= 0 && r.scarecrowClock == sum % ClockTarget(e) && PouchesGot(e, s, r, sum / ClockTarget(e))
  }

  lemma ClockTurns(e: Env, s: Save, elapsed: int, online: bool, ev: Report, owed: int)
    requires elapsed >= 0 && owed == SatMul(elapsed, ClockRate(e, online)) >= 0 && Watching(e, s, owed)
    ensures Turned(e, s, AdvanceScarecrows(e, s, elapsed, online, ev).0, owed)
  {
    hide Between, FillPouches, ScarecrowDrop, SatMul, MultipliersFit, ClockTarget, ScarecrowsIdle, ClockRate;
    TargetPositive(e);
    var sum := s.scarecrowClock + owed;
    var drops := sum / ClockTarget(e);
    QuotientNonNegative(sum, ClockTarget(e));
    var t := s.(scarecrowClock := sum % ClockTarget(e));
    SameScarecrows(e, s, t);
    DropMonotone(e, s, e.content.scarecrow.coinsMin, e.content.scarecrow.coinsMax);
    if drops > 0 {
      PouchesFill(e, t, Low(e, s), High(e, s), 0, drops, ev);
    } else {
      forall j | 0 <= j < |s.pouches| ensures Between(s.pouches[j], s.pouches[j], 0, Low(e, s), High(e, s)) {
        NothingBetween(s.pouches[j], Low(e, s), High(e, s));
      }
    }
  }

  lemma NothingBetween(pouch: int, lo: nat, hi: nat)
    requires Coins(pouch)
    ensures Between(pouch, pouch, 0, lo, hi)
  {
  }

  predicate SameTerms(s: Save, t: Save) {
    && |t.pouches| == |s.pouches| && t.activeContract == s.activeContract && t.rebirths == s.rebirths
    && t.contractRebirths == s.contractRebirths
  }

  lemma SameScarecrows(e: Env, s: Save, t: Save)
    requires SameTerms(s, t)
    ensures Low(e, t) == Low(e, s) && High(e, t) == High(e, s)
    ensures MultipliersFit(e, t) == MultipliersFit(e, s) && ScarecrowsIdle(e, t) == ScarecrowsIdle(e, s)
  {
    hide SatMul, Quo, ClockTarget;
  }

  // One advance of a save at work: the clock keeps every second it is owed, giving the
  // whole drop times as drops and keeping the rest.
  lemma AdvanceTurnsTheClock(e: Env, s: Save, to: int)
    requires to > s.updatedAt && Kept(s) && Watching(e, s, Owed(e, s, to)) && Owed(e, s, to) <= MAX
    ensures var r := Advance(e, s, to).0;
      Turned(e, s, r, Owed(e, s, to)) && SameTerms(s, r) && r.updatedAt == to && Kept(r)
  {
    hide Arrivals, AdvanceScarecrows, Between, ClockTarget, Kept, Watching, Keeps, ScarecrowDrop,
      MultipliersFit, ScarecrowsIdle, Advance, Prelude;
    var elapsed := to - s.updatedAt;
    var online := elapsed <= ONLINE_THRESHOLD;
    var (t, ev) := Arrivals(e, s, to);
    ArrivalsArrive(e, s, to);
    WatchingStill(e, s, t, Owed(e, s, to));
    OwedIsWhatTheClockAdds(e, s, to);
    ClockTurns(e, t, elapsed, online, ev, Owed(e, s, to));
    SameScarecrows(e, s, t);
    AfterTheClock(e, s, to);
    AdvanceKeeps(e, s, to);
    KeepsKept(s, Advance(e, s, to).0);
    TermsKept(e, s, to);
  }

  lemma OwedIsWhatTheClockAdds(e: Env, s: Save, to: int)
    requires to > s.updatedAt && Owed(e, s, to) <= MAX
    ensures Owed(e, s, to) == SatMul(to - s.updatedAt, ClockRate(e, to - s.updatedAt <= ONLINE_THRESHOLD)) >= 0
  {
    OwedPositive(e, s, to);
    SatMulCaps(to - s.updatedAt, ClockRate(e, to - s.updatedAt <= ONLINE_THRESHOLD));
  }

  lemma TargetPositive(e: Env)
    ensures ClockTarget(e) >= 1
  {
    var sc := e.content.scarecrow;
    MulMonotone(1, sc.dropIntervalSec, sc.offlineSlowdown);
    SatMulCaps(sc.dropIntervalSec, sc.offlineSlowdown);
  }

  lemma WatchingStill(e: Env, s: Save, t: Save, owed: int)
    requires Arrived(s, t) && Watching(e, s, owed)
    ensures Watching(e, t, owed) && SameTerms(s, t)
  {
    hide MultipliersFit, ScarecrowsIdle;
    SameScarecrows(e, s, t);
  }

  // Nothing after the scarecrows touches them.
  lemma AfterTheClock(e: Env, s: Save, to: int)
    requires to > s.updatedAt
    ensures var elapsed := to - s.updatedAt;
      var (t, ev) := Arrivals(e, s, to);
      var u := AdvanceScarecrows(e, t, elapsed, elapsed <= ONLINE_THRESHOLD, ev).0;
      var r := Advance(e, s, to).0;
      r.pouches == u.pouches && r.scarecrowClock == u.scarecrowClock && r.updatedAt == to
  {
    hide Arrivals, AdvanceScarecrows, SettlePlots, CheckAchievements;
  }

  lemma TermsKept(e: Env, s: Save, to: int)
    requires Kept(s)
    ensures SameTerms(s, Advance(e, s, to).0)
  {
    hide Advance, Balanced;
    AdvancePasses(e, s, to);
  }

  // ---- Any sequence of advances ----

  function AdvanceThrough(e: Env, s: Save, times: seq<int>): Save
    decreases |times|
  {
    if times == [] then s else AdvanceThrough(e, Advance(e, s, times[0]).0, times[1..])
  }

  function OwedThrough(e: Env, s: Save, times: seq<int>): int
    decreases |times|
  {
    if times == [] then 0 else Owed(e, s, times[0]) + OwedThrough(e, Advance(e, s, times[0]).0, times[1..])
  }

  function DropsThrough(e: Env, s: Save, times: seq<int>): int
    decreases |times|
  {
    if times == [] then 0 else DropsIn(e, s, times[0]) + DropsThrough(e, Advance(e, s, times[0]).0, times[1..])
  }

  predicate Rising(at: int, times: seq<int>)
    decreases |times|
  {
    times == [] || (at < times[0] && Rising(times[0], times[1..]))
  }

  lemma OwedPositive(e: Env, s: Save, to: int)
    requires to > s.updatedAt
    ensures Owed(e, s, to) > 0
  {
    MulMonotone(1, to - s.updatedAt, ClockRate(e, to - s.updatedAt <= ONLINE_THRESHOLD));
  }

  lemma {:induction false} OwedThroughPositive(e: Env, s: Save, times: seq<int>)
    requires Rising(s.updatedAt, times)
    ensures OwedThrough(e, s, times) >= 0
    decreases |times|
  {
    hide Advance, Owed;
    if times != [] {
      OwedPositive(e, s, times[0]);
      AdvanceSetsTheTime(e, s, times[0]);
      OwedThroughPositive(e, Advance(e, s, times[0]).0, times[1..]);
    }
  }

  lemma AdvanceSetsTheTime(e: Env, s: Save, to: int)
    requires to > s.updatedAt
    ensures Advance(e, s, to).0.updatedAt == to
  {
    AfterTheClock(e, s, to);
  }

  // Two spans of drops make one, in the clock and in every pouch.
  lemma TurnsJoin(e: Env, s: Save, t: Save, r: Save, a: int, b: int)
    requires Turned(e, s, t, a) && Turned(e, t, r, b) && SameTerms(s, t) && a >= 0 && b >= 0 && s.scarecrowClock >= 0
    requires PouchesHold(s)
    ensures Turned(e, s, r, a + b)
    ensures (s.scarecrowClock + a) / ClockTarget(e) + (t.scarecrowClock + b) / ClockTarget(e)
         == (s.scarecrowClock + a + b) / ClockTarget(e)
  {
    hide Between, Low, High, ClockTarget;
    var d := ClockTarget(e);
    var x, y := s.scarecrowClock + a, t.scarecrowClock + b;
    QuotientsJoin(x, b, d);
    SameScarecrows(e, s, t);
    forall j | 0 <= j < |s.pouches|
      ensures Between(s.pouches[j], r.pouches[j], (x + b) / d, Low(e, s), High(e, s))
    {
      BetweenJoins(s.pouches[j], t.pouches[j], r.pouches[j], x / d, y / d, Low(e, s), High(e, s));
    }
  }

  lemma QuotientsJoin(x: int, b: int, d: int)
    requires x >= 0 && b >= 0 && d > 0
    ensures x / d + (x % d + b) / d == (x + b) / d && (x % d + b) % d == (x + b) % d
    ensures x / d >= 0 && (x % d + b) / d >= 0
  {
    var q, r := x / d, x % d + b;
    DivMod(x, d);
    DivMod(r, d);
    Distribute(q, r / d, d);
    QuotientIs(x + b, d, q + r / d, r % d);
    QuotientNonNegative(x, d);
    QuotientNonNegative(r, d);
  }

  lemma QuotientNonNegative(x: int, d: int)
    requires x >= 0 && d > 0
    ensures x / d >= 0
  {
  }

  lemma QuotientIs(x: int, d: int, q: int, r: int)
    requires d > 0 && x == q * d + r && 0 <= r < d
    ensures x / d == q && x % d == r
  {
    DivMod(x, d);
    if x / d < q {
      MulMonotone(x / d + 1, q, d);
      Distribute(x / d, 1, d);
    } else if q < x / d {
      MulMonotone(q + 1, x / d, d);
      Distribute(q, 1, d);
    }
  }

  lemma BetweenJoins(p: int, q: int, r: int, m: nat, n: nat, lo: nat, hi: nat)
    requires Between(p, q, m, lo, hi) && Between(q, r, n, lo, hi)
    ensures Between(p, r, m + n, lo, hi)
  {
    TimesPlus(m, n, lo);
    TimesPlus(m, n, hi);
  }

  lemma StillWatching(e: Env, s: Save, t: Save, a: int, rest: int)
    requires Watching(e, s, a + rest) && Turned(e, s, t, a) && SameTerms(s, t) && a >= 0 && rest >= 0
    ensures Watching(e, t, rest)
  {
    hide MultipliersFit, ScarecrowsIdle, Between, Low, High, ClockTarget;
    SameScarecrows(e, s, t);
    DivMod(s.scarecrowClock + a, ClockTarget(e));
    QuotientNonNegative(s.scarecrowClock + a, ClockTarget(e));
    MulMonotone(0, (s.scarecrowClock + a) / ClockTarget(e), ClockTarget(e));
    forall j | 0 <= j < |t.pouches| ensures Coins(t.pouches[j]) {
      BetweenHolds(s.pouches[j], t.pouches[j], (s.scarecrowClock + a) / ClockTarget(e), Low(e, s), High(e, s));
    }
  }

  lemma BetweenHolds(p: int, q: int, n: nat, lo: nat, hi: nat)
    requires Between(p, q, n, lo, hi) && Coins(p)
    ensures Coins(q)
  {
  }

  lemma WatchingLess(e: Env, s: Save, owed: int, more: int)
    requires Watching(e, s, more) && owed <= more
    ensures Watching(e, s, owed) && more <= MAX && s.scarecrowClock >= 0 && PouchesHold(s)
  {
  }

  lemma TurnedMeans(e: Env, s: Save, r: Save, owed: int)
    requires Turned(e, s, r, owed)
    ensures var d := ClockTarget(e);
      && d > 0 && (s.scarecrowClock + owed) / d * d + r.scarecrowClock == s.scarecrowClock + owed
      && 0 <= r.scarecrowClock < d && PouchesGot(e, s, r, (s.scarecrowClock + owed) / d)
  {
    hide PouchesGot, ClockTarget;
    DivMod(s.scarecrowClock + owed, ClockTarget(e));
  }

  lemma TurnedBy(e: Env, s: Save, r: Save, owed: int, drops: int)
    requires ClockTarget(e) > 0 && s.scarecrowClock + owed >= 0
    requires drops * ClockTarget(e) + r.scarecrowClock == s.scarecrowClock + owed && 0 <= r.scarecrowClock < ClockTarget(e)
    requires PouchesGot(e, s, r, drops)
    ensures Turned(e, s, r, owed)
  {
    hide PouchesGot, ClockTarget;
    QuotientIs(s.scarecrowClock + owed, ClockTarget(e), drops, r.scarecrowClock);
  }

  // Over any sequence of online and offline advances: drops times the target plus the
  // clock is what the clock held plus all it was owed, so the drops depend on that sum
  // alone and not on how time was cut; and every pouch got exactly those drops.
  lemma {:induction false} TheClockConservesTime(e: Env, s: Save, times: seq<int>)
    requires times != [] && Rising(s.updatedAt, times) && Kept(s) && Watching(e, s, OwedThrough(e, s, times))
    ensures var r, owed, drops := AdvanceThrough(e, s, times), OwedThrough(e, s, times), DropsThrough(e, s, times);
      && drops * ClockTarget(e) + r.scarecrowClock == s.scarecrowClock + owed && 0 <= r.scarecrowClock < ClockTarget(e)
      && drops == (s.scarecrowClock + owed) / ClockTarget(e)
      && PouchesGot(e, s, r, drops)
    decreases |times|
  {
    hide Kept, Watching, Advance, Owed, PouchesGot, Turned, ClockTarget;
    var (to, rest) := (times[0], times[1..]);
    var t := Advance(e, s, to).0;
    var a, b := Owed(e, s, to), OwedThrough(e, t, rest);
    OwedPositive(e, s, to);
    AdvanceSetsTheTime(e, s, to);
    OwedThroughPositive(e, t, rest);
    WatchingLess(e, s, a, a + b);
    AdvanceTurnsTheClock(e, s, to);
    TurnedMeans(e, s, t, a);
    if rest != [] {
      StillWatching(e, s, t, a, b);
      TheClockConservesTime(e, t, rest);
      var r := AdvanceThrough(e, t, rest);
      TurnedBy(e, t, r, b, DropsThrough(e, t, rest));
      TurnsJoin(e, s, t, r, a, b);
      TurnedMeans(e, s, r, a + b);
    }
  }
}
