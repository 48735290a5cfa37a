// The plot loop against the loop it stands for: the capped and batched cycles and the
// uncapped ones, one harvest at a time.
module FastPath {
  import opened Common
  import opened Money
  import opened FarmState
  import opened FarmAdvance
  import C = Content

  // The plot's loop with neither cap nor batch.
  function OneByOne(e: Env, s: Save, i: nat, crop: C.Crop, grow: C.pos, matureAt: int, to: int, ev: Report)
    : (r: (Save, Report))
    requires i < |s.plots|
    ensures |r.0.plots| == |s.plots|
    decreases Max(to - matureAt + 1, 0)
  {
    if matureAt > to then (s, ev)
    else
      var (t, ev', next) := HarvestOnce(e, s, i, crop, matureAt, to, ev);
      match next
      case None => (t, ev')
      case Some(sown) =>
        var g := if sown.id != crop.id then GrowSeconds(e, t, sown) else grow;
        OneByOne(e, t, i, sown, g, matureAt + g, to, ev')
  }

  // Harvests due by `to` when the first is due at matureAt.
  function Due(matureAt: int, grow: C.pos, to: int): nat {
    if matureAt > to then 0 else (to - matureAt) / grow + 1
  }

  lemma DueBounds(matureAt: int, grow: C.pos, to: int)
    ensures var n := Due(matureAt, grow, to);
      matureAt + n * grow > to && (n > 0 ==> matureAt + (n - 1) * grow <= to)
  {
    if matureAt <= to {
      var q := (to - matureAt) / grow;
      DivMod(to - matureAt, grow);
      Distribute(q, 1, grow);
    }
  }

  lemma DueIs(matureAt: int, grow: C.pos, to: int, n: nat)
    requires matureAt + n * grow > to && (n > 0 ==> matureAt + (n - 1) * grow <= to)
    ensures Due(matureAt, grow, to) == n
  {
    var d := Due(matureAt, grow, to);
    DueBounds(matureAt, grow, to);
    if d < n {
      MulMonotone(d, n - 1, grow);
    } else if n < d {
      MulMonotone(n, d - 1, grow);
    }
  }

  lemma DueStep(matureAt: int, grow: C.pos, to: int)
    requires matureAt <= to
    ensures Due(matureAt, grow, to) == Due(matureAt + grow, grow, to) + 1
  {
    var n := Due(matureAt + grow, grow, to);
    DueBounds(matureAt + grow, grow, to);
    Distribute(n, 1, grow);
    if n > 0 {
      Distribute(n - 1, 1, grow);
    }
    DueIs(matureAt, grow, to, n + 1);
  }

  // n times x, as a sum: the proofs below only ever add one more.
  function Times(n: nat, x: nat): nat {
    if n == 0 then 0 else x + Times(n - 1, x)
  }

  lemma {:induction false} TimesIsProduct(n: nat, x: nat)
    ensures Times(n, x) == n * x
  {
    if n > 0 {
      TimesIsProduct(n - 1, x);
      assert n * x == x + (n - 1) * x;
    }
  }

  lemma {:induction false} TimesMonotone(n: nat, x: nat, y: nat)
    requires x <= y
    ensures Times(n, x) <= Times(n, y)
  {
    if n > 0 {
      TimesMonotone(n - 1, x, y);
    }
  }

  lemma CapsAsTimes(n: nat, x: nat)
    ensures Times(n, x) <= MAX ==> SatMul(x, n) == Times(n, x)
  {
    TimesIsProduct(n, x);
    SatMulCaps(x, n);
    assert x * n == n * x;
  }

  // A harvest at a sure price: nothing is rolled, and the night changes nothing.
  predicate Sure(e: Env, s: Save, crop: C.Crop) {
    && !crop.archetype.Risky? && crop.id != e.content.moon.cropId && e.content.golden.chancePct == 0
    && (!e.content.flavor.enabled || !s.flavorEnabled || e.content.flavor.chancePct == 0)
  }

  // No contract that this save's harvests could finish.
  predicate Quiet(s: Save) {
    s.activeContract == NoContract || (s.activeContract.LeanSeason? && !Complete(s))
  }

  function Price(e: Env, s: Save, crop: C.Crop): nat {
    SellMultiplied(e, s, crop.sellValue, crop.id, 0)
  }

  // An auto-sow plot that keeps replanting one profitable crop.
  predicate Steady(e: Env, s: Save, i: nat, crop: C.Crop, to: int)
    requires i < |s.plots|
  {
    && Quiet(s) && Sure(e, s, crop) && s.plots[i].autoSow && SowCrop(e, s.plots[i], crop) == crop
    && Unlocked(s, crop.unlock) && SeasonalPlantable(e, crop.unlock, to)
    && Price(e, s, crop) > SeedCost(e, s, crop)
  }

  // Room for g more coins and n more harvests before anything saturates.
  predicate Room(s: Save, ev: Report, g: nat, n: nat) {
    && 0 <= s.coins <= MAX - g && s.runEarnings <= MAX - g && s.lifetimeEarnings <= MAX - g
    && s.contractEarnings <= MAX - g && s.lifetimeHarvests <= MAX - n && ev.autoCoins <= MAX - g
  }

  // n harvests that brought g and cost d, leaving plot i as given.
  function Bank(s: Save, i: nat, plot: Plot, g: nat, d: nat, n: nat): (r: Save)
    requires i < |s.plots|
    ensures |r.plots| == |s.plots|
  {
    s.(coins := s.coins + g - d, runEarnings := s.runEarnings + g, lifetimeEarnings := s.lifetimeEarnings + g,
       contractEarnings := if s.activeContract == NoContract then s.contractEarnings else s.contractEarnings + g,
       lifetimeHarvests := s.lifetimeHarvests + n,
       books := s.books.(earned := s.books.earned + g, spent := s.books.spent + d),
       plots := s.plots[i := plot])
  }

  function AddTo(t: Tally, key: string, n: nat): Tally {
    if n == 0 then t else Bump(t, key, n)
  }

  function Log(ev: Report, id: string, g: nat, d: nat, n: nat): Report {
    ev.(autoCoins := ev.autoCoins + g - d,
        autoHarvested := AddTo(ev.autoHarvested, id, n))
  }

  lemma LogTwice(ev: Report, id: string, g: nat, d: nat, n: nat, g': nat, d': nat, n': nat)
    ensures Log(Log(ev, id, g, d, n), id, g', d', n') == Log(ev, id, g + g', d + d', n + n')
  {
  }

  lemma SurePayout(e: Env, s: Save, crop: C.Crop, now: int)
    requires Sure(e, s, crop)
    ensures HarvestPayout(e, s, crop, now) == (Yield(Price(e, s, crop), 0, false, false), s)
    ensures ExpectedPayout(e, s, crop, now) == Price(e, s, crop)
  {
    assert SellMultiplied(e, s, crop.sellValue, crop.id, now) == Price(e, s, crop);
  }

  lemma CreditsPlainly(s: Save, g: nat)
    requires Quiet(s) && 0 <= s.coins <= MAX - g && s.runEarnings <= MAX - g && s.lifetimeEarnings <= MAX - g
    requires s.contractEarnings <= MAX - g
    ensures Credit(s, g) == s.(coins := s.coins + g, runEarnings := s.runEarnings + g,
                               lifetimeEarnings := s.lifetimeEarnings + g,
                               contractEarnings := if s.activeContract == NoContract then s.contractEarnings
                                                   else s.contractEarnings + g,
                               books := s.books.(earned := s.books.earned + g))
  {
  }

  lemma CreditNothing(s: Save)
    ensures Credit(s, 0) == s
  {
  }

  // One sure harvest adds its price, and nothing else.
  lemma ReapSure(e: Env, s: Save, i: nat, crop: C.Crop, matureAt: int, ev: Report)
    requires i < |s.plots| && Quiet(s) && Sure(e, s, crop) && Room(s, ev, Price(e, s, crop), 1)
    ensures var p := Price(e, s, crop);
      Reap(e, s, crop, matureAt, ev) == (Bank(s, i, s.plots[i], p, 0, 1), Log(ev, crop.id, p, 0, 1))
  {
    hide HarvestPayout, SellMultiplied, Price, Credit;
    SurePayout(e, s, crop, matureAt);
    var p := Price(e, s, crop);
    CreditsPlainly(s, p);
    CreditNothing(Credit(s, p));
    assert s.plots[i := s.plots[i]] == s.plots;
    assert Credit(s, p).(lifetimeHarvests := SatAdd(s.lifetimeHarvests, 1)) == Bank(s, i, s.plots[i], p, 0, 1);
  }

  function Shifted(plot: Plot, seconds: int): Plot {
    plot.(plantedAt := plot.plantedAt + seconds)
  }

  // Banking changes no price, no gate and no other plot.
  lemma BankKeepsTerms(e: Env, s: Save, i: nat, plot: Plot, g: nat, d: nat, n: nat, crop: C.Crop)
    requires i < |s.plots|
    ensures var t := Bank(s, i, plot, g, d, n);
      && (Quiet(t) <==> Quiet(s)) && (Sure(e, t, crop) <==> Sure(e, s, crop))
      && Price(e, t, crop) == Price(e, s, crop) && SeedCost(e, t, crop) == SeedCost(e, s, crop)
      && GrowSeconds(e, t, crop) == GrowSeconds(e, s, crop)
      && (Unlocked(s, crop.unlock) ==> Unlocked(t, crop.unlock))
  {
    var t := Bank(s, i, plot, g, d, n);
    assert ActiveEvent(e, t) == ActiveEvent(e, s);
  }

  lemma BankElsewhere(s: Save, i: nat, plot: Plot, g: nat, d: nat, n: nat, j: nat)
    requires i < |s.plots| && j < |s.plots|
    ensures var t := Bank(s, i, plot, g, d, n);
      && t.plots[j] == (if j == i then plot else s.plots[j]) && t.coins == s.coins + g - d
      && (BlocksAutomation(t) <==> BlocksAutomation(s))
  {
  }

  lemma BankNothing(s: Save, i: nat)
    requires i < |s.plots|
    ensures Bank(s, i, s.plots[i], 0, 0, 0) == s
  {
    assert s.plots[i := s.plots[i]] == s.plots;
  }

  // One full turn of the loop on a steady plot.
  lemma TurnSteady(e: Env, s: Save, i: nat, crop: C.Crop, grow: C.pos, to: int, ev: Report)
    requires i < |s.plots| && Steady(e, s, i, crop, to) && Room(s, ev, Price(e, s, crop), 1)
    ensures var p, c, m := Price(e, s, crop), SeedCost(e, s, crop), s.plots[i].plantedAt + grow;
      && HarvestOnce(e, s, i, crop, m, to, ev)
         == (Bank(s, i, Shifted(s.plots[i], grow), p, c, 1), Log(ev, crop.id, p, c, 1), Some(crop))
      && Steady(e, Bank(s, i, Shifted(s.plots[i], grow), p, c, 1), i, crop, to)
  {
    hide Reap, Price, SeedCost, GrowSeconds;
    var p, c, m := Price(e, s, crop), SeedCost(e, s, crop), s.plots[i].plantedAt + grow;
    ReapSure(e, s, i, crop, m, ev);
    var t := Bank(s, i, s.plots[i], p, 0, 1);
    BankKeepsTerms(e, s, i, s.plots[i], p, 0, 1, crop);
    BankKeepsTerms(e, s, i, Shifted(s.plots[i], grow), p, c, 1, crop);
    assert t.plots == s.plots;
  }

  // What n turns at price p and seed cost c come to.
  function Gathered(s: Save, i: nat, id: string, p: nat, c: nat, grow: C.pos, n: nat, ev: Report): (r: (Save, Report))
    requires i < |s.plots|
    ensures |r.0.plots| == |s.plots|
  {
    (Bank(s, i, Shifted(s.plots[i], Times(n, grow)), Times(n, p), Times(n, c), n), Log(ev, id, Times(n, p), Times(n, c), n))
  }

  lemma GatheredNone(s: Save, i: nat, id: string, p: nat, c: nat, grow: C.pos, ev: Report)
    requires i < |s.plots|
    ensures Gathered(s, i, id, p, c, grow, 0, ev) == (s, ev)
  {
    assert s.plots[i := Shifted(s.plots[i], 0)] == s.plots;
  }

  lemma GatheredOne(s: Save, i: nat, id: string, p: nat, c: nat, grow: C.pos, ev: Report)
    requires i < |s.plots|
    ensures Gathered(s, i, id, p, c, grow, 1, ev)
         == (Bank(s, i, Shifted(s.plots[i], grow), p, c, 1), Log(ev, id, p, c, 1))
  {
    assert Times(1, p) == p && Times(1, c) == c && Times(1, grow) == grow;
  }

  lemma GatheredNext(s: Save, i: nat, id: string, p: nat, c: nat, grow: C.pos, n: nat, ev: Report)
    requires i < |s.plots| && n > 0
    ensures var (t, ev') := Gathered(s, i, id, p, c, grow, 1, ev);
      Gathered(t, i, id, p, c, grow, n - 1, ev') == Gathered(s, i, id, p, c, grow, n, ev)
  {
    LogTwice(ev, id, p, c, 1, Times(n - 1, p), Times(n - 1, c), n - 1);
    BankTwice(s, i, Shifted(s.plots[i], grow), p, c, 1,
              Shifted(s.plots[i], Times(n, grow)), Times(n - 1, p), Times(n - 1, c), n - 1);
    assert Times(1, p) == p && Times(1, c) == c && Times(1, grow) == grow;
  }

  lemma BankTwice(s: Save, i: nat, a: Plot, g: nat, d: nat, n: nat, b: Plot, g': nat, d': nat, n': nat)
    requires i < |s.plots|
    ensures Bank(Bank(s, i, a, g, d, n), i, b, g', d', n') == Bank(s, i, b, g + g', d + d', n + n')
  {
    assert s.plots[i := a][i := b] == s.plots[i := b];
  }

  // A steady plot with room for all that is due, its price and its seed cost.
  predicate Ready(e: Env, s: Save, i: nat, crop: C.Crop, p: nat, c: nat, grow: C.pos, to: int, ev: Report)
    requires i < |s.plots|
  {
    var due := DueAt(s, i, grow, to);
    Steady(e, s, i, crop, to) && p == Price(e, s, crop) && c == SeedCost(e, s, crop) && Room(s, ev, Times(due, p), due)
  }

  function DueAt(s: Save, i: nat, grow: C.pos, to: int): nat
    requires i < |s.plots|
  {
    Due(s.plots[i].plantedAt + grow, grow, to)
  }

  // One full turn of the loop: what is still due is one less, and the plot stays ready.
  lemma Turn(e: Env, s: Save, i: nat, crop: C.Crop, p: nat, c: nat, grow: C.pos, to: int, ev: Report)
    requires i < |s.plots| && Ready(e, s, i, crop, p, c, grow, to, ev) && DueAt(s, i, grow, to) > 0
    ensures var (t, ev') := Gathered(s, i, crop.id, p, c, grow, 1, ev);
      && HarvestOnce(e, s, i, crop, s.plots[i].plantedAt + grow, to, ev) == (t, ev', Some(crop))
      && t.plots[i].plantedAt == s.plots[i].plantedAt + grow && t.coins == s.coins + p - c
      && DueAt(t, i, grow, to) == DueAt(s, i, grow, to) - 1
      && Ready(e, t, i, crop, p, c, grow, to, ev')
  {
    var due := DueAt(s, i, grow, to);
    DueStep(s.plots[i].plantedAt + grow, grow, to);
    GatheredOne(s, i, crop.id, p, c, grow, ev);
    TurnSteady(e, s, i, crop, grow, to, ev);
    BankKeepsTerms(e, s, i, Shifted(s.plots[i], grow), p, c, 1, crop);
  }

  lemma {:induction false} OneByOneGathers(e: Env, s: Save, i: nat, crop: C.Crop, p: nat, c: nat, grow: C.pos, to: int, ev: Report)
    requires i < |s.plots| && Ready(e, s, i, crop, p, c, grow, to, ev)
    ensures OneByOne(e, s, i, crop, grow, s.plots[i].plantedAt + grow, to, ev)
         == Gathered(s, i, crop.id, p, c, grow, DueAt(s, i, grow, to), ev)
    decreases DueAt(s, i, grow, to)
  {
    hide HarvestOnce, Steady, Price, SeedCost, GrowSeconds, Bank, Log;
    var due := DueAt(s, i, grow, to);
    if due == 0 {
      GatheredNone(s, i, crop.id, p, c, grow, ev);
    } else {
      Turn(e, s, i, crop, p, c, grow, to, ev);
      var (t, ev') := Gathered(s, i, crop.id, p, c, grow, 1, ev);
      OneByOneGathers(e, t, i, crop, p, c, grow, to, ev');
      GatheredNext(s, i, crop.id, p, c, grow, due, ev);
    }
  }

  lemma BatchGathers(e: Env, s: Save, i: nat, crop: C.Crop, p: nat, c: nat, grow: C.pos, to: int, ev: Report)
    requires i < |s.plots| && Ready(e, s, i, crop, p, c, grow, to, ev) && s.plots[i].plantedAt + grow <= to
    ensures Batch(e, s, i, crop, grow, s.plots[i].plantedAt + grow, to, ev)
         == Gathered(s, i, crop.id, p, c, grow, DueAt(s, i, grow, to), ev)
  {
    hide Price, SeedCost, SatMul, Credit, ExpectedPayout;
    var m := s.plots[i].plantedAt + grow;
    var n := DueAt(s, i, grow, to);
    SurePayout(e, s, crop, m);
    var g := Times(n, p);
    CapsAsTimes(n, p);
    TimesIsProduct(n, c);
    TimesMonotone(n, c, p);
    CapsAsTimes(n, c);
    TimesIsProduct(n - 1, grow);
    CreditsPlainly(s, g);
    assert m + (n - 1) * grow == s.plots[i].plantedAt + Times(n, grow);
  }

  // Whether the capped loop settles everything: the batch needs the wallet to hold one
  // seed when the cap is reached.
  predicate Settles(coins: int, p: nat, c: nat, turns: nat, due: nat) {
    due <= turns || coins + Times(turns, p) - Times(turns, c) >= c
  }

  function Taken(coins: int, p: nat, c: nat, turns: nat, due: nat): nat {
    if Settles(coins, p, c, turns, due) then due else turns
  }

  // The capped loop from any count of turns already taken.
  lemma {:induction false} CyclesGather(e: Env, s: Save, i: nat, crop: C.Crop, p: nat, c: nat, grow: C.pos, cycles: nat, to: int, ev: Report)
    requires i < |s.plots| && Ready(e, s, i, crop, p, c, grow, to, ev) && cycles <= AUTO_CYCLE_CAP
    ensures Cycles(e, s, i, crop, grow, s.plots[i].plantedAt + grow, cycles, to, ev)
         == Gathered(s, i, crop.id, p, c, grow, Taken(s.coins, p, c, AUTO_CYCLE_CAP - cycles, DueAt(s, i, grow, to)), ev)
    decreases DueAt(s, i, grow, to)
  {
    hide HarvestOnce, Steady, Price, SeedCost, Batch, CanBatch, GrowSeconds, Bank, Log;
    var due, left := DueAt(s, i, grow, to), AUTO_CYCLE_CAP - cycles;
    if due == 0 {
      GatheredNone(s, i, crop.id, p, c, grow, ev);
    } else if left == 0 {
      AtTheCap(e, s, i, crop, p, c, grow, to, ev);
    } else {
      Turn(e, s, i, crop, p, c, grow, to, ev);
      var (t, ev') := Gathered(s, i, crop.id, p, c, grow, 1, ev);
      CyclesGather(e, t, i, crop, p, c, grow, cycles + 1, to, ev');
      GatheredNext(s, i, crop.id, p, c, grow, Taken(s.coins, p, c, left, due), ev);
    }
  }

  lemma AtTheCap(e: Env, s: Save, i: nat, crop: C.Crop, p: nat, c: nat, grow: C.pos, to: int, ev: Report)
    requires i < |s.plots| && Ready(e, s, i, crop, p, c, grow, to, ev) && DueAt(s, i, grow, to) > 0
    ensures Cycles(e, s, i, crop, grow, s.plots[i].plantedAt + grow, AUTO_CYCLE_CAP, to, ev)
         == Gathered(s, i, crop.id, p, c, grow, Taken(s.coins, p, c, 0, DueAt(s, i, grow, to)), ev)
  {
    SurePayout(e, s, crop, s.plots[i].plantedAt + grow);
    GatheredNone(s, i, crop.id, p, c, grow, ev);
    if s.coins >= c {
      BatchGathers(e, s, i, crop, p, c, grow, to, ev);
    }
  }

  // On a steady plot, without saturation, the capped and batched loop gives the very
  // save and report of the loop that harvests one at a time, exactly when no more
  // harvests are due than the cap or the wallet at the cap still holds one seed.
  lemma TheCappedLoopIsExactWhen(e: Env, s: Save, i: nat, crop: C.Crop, p: nat, c: nat, grow: C.pos, to: int, ev: Report)
    requires i < |s.plots| && Ready(e, s, i, crop, p, c, grow, to, ev)
    ensures var m := s.plots[i].plantedAt + grow;
      Cycles(e, s, i, crop, grow, m, 0, to, ev) == OneByOne(e, s, i, crop, grow, m, to, ev)
      <==> Due(m, grow, to) <= AUTO_CYCLE_CAP || s.coins + AUTO_CYCLE_CAP * (p - c) >= c
  {
    hide Cycles, OneByOne, Ready, Log, Shifted;
    var due := DueAt(s, i, grow, to);
    assert Taken(s.coins, p, c, AUTO_CYCLE_CAP, due) != due ==>
           Gathered(s, i, crop.id, p, c, grow, AUTO_CYCLE_CAP, ev) != Gathered(s, i, crop.id, p, c, grow, due, ev);
    OneByOneGathers(e, s, i, crop, p, c, grow, to, ev);
    CyclesGather(e, s, i, crop, p, c, grow, 0, to, ev);
    TimesIsProduct(AUTO_CYCLE_CAP, p);
    TimesIsProduct(AUTO_CYCLE_CAP, c);
  }

  // A wallet that starts with one seed is always enough.
  lemma OneSeedIsEnough(e: Env, s: Save, i: nat, crop: C.Crop, p: nat, c: nat, grow: C.pos, to: int, ev: Report)
    requires i < |s.plots| && Ready(e, s, i, crop, p, c, grow, to, ev) && s.coins >= c
    ensures var m := s.plots[i].plantedAt + grow;
      Cycles(e, s, i, crop, grow, m, 0, to, ev) == OneByOne(e, s, i, crop, grow, m, to, ev)
  {
    TheCappedLoopIsExactWhen(e, s, i, crop, p, c, grow, to, ev);
  }

  // ---- How often the loop turns ----

  function Turns(e: Env, s: Save, i: nat, crop: C.Crop, grow: C.pos, matureAt: int, cycles: nat, to: int, ev: Report): nat
    requires i < |s.plots|
    decreases Max(to - matureAt + 1, 0)
  {
    if matureAt > to then 0
    else if cycles >= AUTO_CYCLE_CAP then 1
    else
      var (t, ev', next) := HarvestOnce(e, s, i, crop, matureAt, to, ev);
      match next
      case None => 1
      case Some(sown) =>
        var g := if sown.id != crop.id then GrowSeconds(e, t, sown) else grow;
        1 + Turns(e, t, i, sown, g, matureAt + g, cycles + 1, to, ev')
  }

  // Whatever the content and however long the absence: one turn past the cap at most.
  lemma {:induction false} TheLoopIsBounded(
    e: Env, s: Save, i: nat, crop: C.Crop, grow: C.pos, matureAt: int, cycles: nat, to: int, ev: Report)
    requires i < |s.plots| && cycles <= AUTO_CYCLE_CAP
    ensures Turns(e, s, i, crop, grow, matureAt, cycles, to, ev) <= AUTO_CYCLE_CAP - cycles + 1
    decreases Max(to - matureAt + 1, 0)
  {
    hide HarvestOnce, GrowSeconds;
    if matureAt <= to && cycles < AUTO_CYCLE_CAP {
      var (t, ev', next) := HarvestOnce(e, s, i, crop, matureAt, to, ev);
      if next.Some? {
        var g := if next.value.id != crop.id then GrowSeconds(e, t, next.value) else grow;
        TheLoopIsBounded(e, t, i, next.value, g, matureAt + g, cycles + 1, to, ev');
      }
    }
  }

  // ---- The season guard at the cap ----

  // The loop as it would be if the batch never asked whether the season is still open.
  function CyclesUnguarded(e: Env, s: Save, i: nat, crop: C.Crop, grow: C.pos, matureAt: int, cycles: nat, to: int, ev: Report)
    : (Save, Report)
    requires i < |s.plots|
    decreases Max(to - matureAt + 1, 0)
  {
    if matureAt > to then (s, ev)
    else if cycles >= AUTO_CYCLE_CAP then
      if s.plots[i].autoSow && s.coins >= SeedCost(e, s, crop) && ExpectedPayout(e, s, crop, matureAt) > SeedCost(e, s, crop)
      then Batch(e, s, i, crop, grow, matureAt, to, ev) else (s, ev)
    else
      var (t, ev', next) := HarvestOnce(e, s, i, crop, matureAt, to, ev);
      match next
      case None => (t, ev')
      case Some(sown) =>
        var g := if sown.id != crop.id then GrowSeconds(e, t, sown) else grow;
        CyclesUnguarded(e, t, i, sown, g, matureAt + g, cycles + 1, to, ev')
  }

  // The guard never decides: a plot only reaches the cap by replanting in season.
  lemma {:induction false} TheSeasonGuardNeverDecides(
    e: Env, s: Save, i: nat, crop: C.Crop, grow: C.pos, matureAt: int, cycles: nat, to: int, ev: Report)
    requires i < |s.plots| && (cycles > 0 ==> SeasonalPlantable(e, crop.unlock, to))
    ensures Cycles(e, s, i, crop, grow, matureAt, cycles, to, ev)
         == CyclesUnguarded(e, s, i, crop, grow, matureAt, cycles, to, ev)
    decreases Max(to - matureAt + 1, 0)
  {
    hide Reap, Batch, GrowSeconds, SeedCost, ExpectedPayout, HarvestOnce;
    if matureAt <= to && cycles < AUTO_CYCLE_CAP {
      var (t, ev', next) := HarvestOnce(e, s, i, crop, matureAt, to, ev);
      ReplantsInSeason(e, s, i, crop, matureAt, to, ev);
      if next.Some? {
        var g := if next.value.id != crop.id then GrowSeconds(e, t, next.value) else grow;
        TheSeasonGuardNeverDecides(e, t, i, next.value, g, matureAt + g, cycles + 1, to, ev');
      }
    }
  }

  lemma ReplantsInSeason(e: Env, s: Save, i: nat, crop: C.Crop, matureAt: int, to: int, ev: Report)
    requires i < |s.plots|
    ensures var next := HarvestOnce(e, s, i, crop, matureAt, to, ev).2;
      next.Some? ==> SeasonalPlantable(e, next.value.unlock, to)
  {
    hide Reap, SeedCost;
    var t := Reap(e, s, crop, matureAt, ev).0;
    var sow := SowCrop(e, t.plots[i], crop);
  }
}
