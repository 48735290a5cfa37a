// The rename gate: a burst of attempts refilled after a cooldown, under a daily
// ceiling, with its counters kept in the save's row.
module RenameGate {
  import opened Common

  const BURST_LIMIT := 5
  const COOLDOWN := 60
  const DAY := 86400
  const DAILY_LIMIT := 60

  datatype Verdict = Allowed | Locked | RateLimited

  datatype Counters = Counters(locked: bool, lastAt: int, dayStart: int, dayCount: int, burstCount: int)

  // What one attempt does to the row. A refusal of either kind returns the row as it was.
  function Gate(r: Counters, now: int): (Counters, Verdict) {
    var burst := if r.lastAt != 0 && now >= r.lastAt + COOLDOWN then 0 else r.burstCount;
    var fresh' := now >= r.dayStart + DAY;
    var count := if fresh' then 0 else r.dayCount;
    if r.locked then (r, Locked)
    else if burst >= BURST_LIMIT || count >= DAILY_LIMIT then (r, RateLimited)
    else (Counters(false, now, if fresh' then now else r.dayStart, count + 1, burst + 1), Allowed)
  }

  datatype GateError = InvalidKey | NoRow

  // The saves table as far as the gate is concerned.
  class RenameTable {
    var rows: map<(string, string), Counters>

    constructor (rows: map<(string, string), Counters>)
      ensures this.rows == rows
    {
      this.rows := rows;
    }

    static predicate ValidSlot(slot: string) {
      && 1 <= |slot| <= 32
      && forall i :: 0 <= i < |slot| ==>
           'a' <= slot[i] <= 'z' || '0' <= slot[i] <= '9' || slot[i] == '_' || slot[i] == '-'
    }

    method GateRename(fingerprint: string, slot: string, now: int) returns (r: Result<Verdict, GateError>)
      modifies this
      ensures var key := (fingerprint, slot);
        if fingerprint == "" || !ValidSlot(slot) then r == Err(InvalidKey) && rows == old(rows)
        else if key !in old(rows) then r == Err(NoRow) && rows == old(rows)
        else r == Ok(Gate(old(rows)[key], now).1) && rows == old(rows)[key := Gate(old(rows)[key], now).0]
    {
      if fingerprint == "" || !ValidSlot(slot) {
        return Err(InvalidKey);
      }
      var key := (fingerprint, slot);
      if key !in rows {
        return Err(NoRow);
      }
      var row := rows[key];
      var dayStart, dayCount, burstCount := row.dayStart, row.dayCount, row.burstCount;
      assert rows[key := row] == rows;
      if row.locked {
        return Ok(Locked);
      }
      if row.lastAt != 0 && now >= row.lastAt + COOLDOWN {
        burstCount := 0;
      }
      if burstCount >= BURST_LIMIT {
        return Ok(RateLimited);
      }
      if now >= dayStart + DAY {
        dayStart := now;
        dayCount := 0;
      }
      if dayCount >= DAILY_LIMIT {
        return Ok(RateLimited);
      }
      dayCount := dayCount + 1;
      burstCount := burstCount + 1;
      rows := rows[key := Counters(false, now, dayStart, dayCount, burstCount)];
      r := Ok(Allowed);
    }
  }

  // ---- Histories ----

  // Attempts by the player, and the operator's lock going on and off.
  datatype Event = Attempt(now: int) | SetLock(on: bool)

  // A history's row with the times it allowed, and the day window each fell in.
  datatype Trace = Trace(row: Counters, log: seq<int>, days: seq<int>)

  function Next(t: Trace, e: Event): Trace {
    match e
    case SetLock(on) => t.(row := t.row.(locked := on))
    case Attempt(now) =>
      var (row, verdict) := Gate(t.row, now);
      if verdict == Allowed then Trace(row, t.log + [now], t.days + [row.dayStart]) else t.(row := row)
  }

  function History(t: Trace, events: seq<Event>): Trace
    decreases |events|
  {
    if events == [] then t else History(Next(t, events[0]), events[1..])
  }

  // The clock never goes back.
  predicate Clocked(from: int, events: seq<Event>)
    decreases |events|
  {
    events == [] || (Ticks(from, events[0]) && Clocked(After(from, events[0]), events[1..]))
  }

  predicate Ticks(from: int, e: Event) {
    e.Attempt? ==> from <= e.now
  }

  function After(from: int, e: Event): int {
    if e.Attempt? then e.now else from
  }

  // Counters a row may hold before the history starts, fresh or not.
  predicate Plausible(r: Counters) {
    0 <= r.dayCount <= DAILY_LIMIT && 0 <= r.burstCount <= BURST_LIMIT
  }

  ghost predicate Spaced(log: seq<int>, k: nat, width: int) {
    forall i, j :: 0 <= i && i + k <= j < |log| ==> log[j] - log[i] >= width
  }

  ghost predicate Sorted(log: seq<int>) {
    forall i, j :: 0 <= i <= j < |log| ==> log[i] <= log[j]
  }

  // All entries before index p are at least a cooldown before the entry at p and later ones.
  ghost predicate GapBefore(log: seq<int>, p: int) {
    forall i, j :: 0 <= i < p <= j < |log| ==> log[j] - log[i] >= COOLDOWN
  }

  ghost predicate BurstInv(t: Trace, clock: int) {
    && Plausible(t.row)
    && Sorted(t.log) && (forall i :: 0 <= i < |t.log| ==> t.log[i] <= clock)
    && Spaced(t.log, BURST_LIMIT, COOLDOWN)
    && (t.log != [] ==> t.row.lastAt == t.log[|t.log| - 1] && t.row.burstCount >= 1)
    && GapBefore(t.log, |t.log| - t.row.burstCount)
  }

  // A later window starts a day or more after an earlier one, after everything that
  // one allowed, and no window labels more than sixty entries.
  ghost predicate Windows(log: seq<int>, days: seq<int>) {
    && |days| == |log|
    && (forall i, j :: 0 <= i < j < |days| && days[i] != days[j] ==>
          days[j] - days[i] >= DAY && log[i] <= days[j] <= log[j])
    && (forall i, j :: 0 <= i && i + DAILY_LIMIT <= j < |days| ==> days[i] != days[j])
  }

  ghost predicate DayInv(t: Trace) {
    && Windows(t.log, t.days) && 0 <= t.row.dayCount
    && (forall i :: 0 <= i < |t.days| ==> t.days[i] == t.row.dayStart || t.days[i] + DAY <= t.row.dayStart)
    && (t.log != [] ==> t.row.dayStart == t.days[|t.days| - 1])
    && (forall i :: 0 <= i < |t.days| - t.row.dayCount ==> t.days[i] != t.row.dayStart)
  }

  lemma AppendSpaced(log: seq<int>, x: int, k: nat, width: int)
    requires Spaced(log, k, width)
    requires forall i :: 0 <= i && i + k <= |log| && i < |log| ==> x - log[i] >= width
    requires k > 0
    ensures Spaced(log + [x], k, width)
  {
  }

  lemma AppendGap(log: seq<int>, x: int, p: int)
    requires Sorted(log) && (forall i :: 0 <= i < |log| ==> log[i] <= x)
    requires p < |log| ==> GapBefore(log, p)
    requires p >= |log| ==> forall i :: 0 <= i < |log| ==> x - log[i] >= COOLDOWN
    ensures GapBefore(log + [x], p)
  {
    forall i, j | 0 <= i < p <= j < |log| + 1 ensures (log + [x])[j] - (log + [x])[i] >= COOLDOWN {
      if j == |log| && p < |log| {
        assert log[p] - log[i] >= COOLDOWN;
      }
    }
  }

  // The new entry keeps the spacing: either the burst was refilled a cooldown after
  // everything, or fewer than five entries stand after the last gap.
  lemma AllowedKeepsSpacing(t: Trace, now: int, clock: int)
    requires BurstInv(t, clock) && clock <= now
    requires Gate(t.row, now).1 == Allowed
    ensures Spaced(t.log + [now], BURST_LIMIT, COOLDOWN)
    ensures GapBefore(t.log + [now], |t.log| + 1 - Gate(t.row, now).0.burstCount)
  {
    var n := |t.log|;
    if t.row.lastAt != 0 && now >= t.row.lastAt + COOLDOWN {
      AppendGap(t.log, now, n);
    } else {
      AppendGap(t.log, now, n - t.row.burstCount);
      forall i | 0 <= i && i + BURST_LIMIT <= n ensures now - t.log[i] >= COOLDOWN {
        assert t.log[n - t.row.burstCount] - t.log[i] >= COOLDOWN;
      }
    }
    AppendSpaced(t.log, now, BURST_LIMIT, COOLDOWN);
  }

  lemma NextKeepsBurst(t: Trace, e: Event, clock: int)
    requires BurstInv(t, clock) && Ticks(clock, e)
    ensures BurstInv(Next(t, e), After(clock, e))
  {
    if e.Attempt? && Gate(t.row, e.now).1 == Allowed {
      AllowedKeepsSpacing(t, e.now, clock);
    }
  }

  lemma AppendWindow(log: seq<int>, days: seq<int>, now: int, day: int)
    requires Windows(log, days)
    requires forall i :: 0 <= i < |days| && days[i] != day ==> day - days[i] >= DAY && log[i] <= day <= now
    requires forall i :: 0 <= i && i + DAILY_LIMIT <= |days| ==> days[i] != day
    ensures Windows(log + [now], days + [day])
  {
  }

  lemma NextKeepsDay(t: Trace, e: Event, clock: int)
    requires BurstInv(t, clock) && DayInv(t) && Ticks(clock, e)
    ensures DayInv(Next(t, e))
  {
    if e.Attempt? && Gate(t.row, e.now).1 == Allowed {
      var row := Gate(t.row, e.now).0;
      if row.dayStart == t.row.dayStart {
        forall i | 0 <= i < |t.days| && t.days[i] != row.dayStart
          ensures row.dayStart - t.days[i] >= DAY && t.log[i] <= row.dayStart <= e.now
        {
          assert t.days[i] != t.days[|t.days| - 1];
        }
      }
      AppendWindow(t.log, t.days, e.now, row.dayStart);
    }
  }

  lemma {:induction false} HistoryKeeps(t: Trace, events: seq<Event>, clock: int) returns (last: int)
    requires BurstInv(t, clock) && DayInv(t) && Clocked(clock, events)
    ensures BurstInv(History(t, events), last) && DayInv(History(t, events))
    decreases |events|
  {
    last := clock;
    if events != [] {
      NextKeepsBurst(t, events[0], clock);
      NextKeepsDay(t, events[0], clock);
      last := HistoryKeeps(Next(t, events[0]), events[1..], After(clock, events[0]));
    }
  }

  // ---- Windows ----

  function CountIn(log: seq<int>, lo: int, hi: int): nat {
    if log == [] then 0 else (if lo <= log[0] < hi then 1 else 0) + CountIn(log[1..], lo, hi)
  }

  lemma {:induction false} CountBounded(log: seq<int>, lo: int, hi: int, k: nat)
    requires forall i :: k <= i < |log| ==> !(lo <= log[i] < hi)
    ensures CountIn(log, lo, hi) <= k
  {
    if log != [] {
      CountBounded(log[1..], lo, hi, if k == 0 then 0 else k - 1);
    }
  }

  // Entries k apart are at least a width apart, so no window of that width holds more than k.
  lemma {:induction false} SpacedWindows(log: seq<int>, k: nat, width: int, lo: int)
    requires Spaced(log, k, width)
    ensures CountIn(log, lo, lo + width) <= k
  {
    if log != [] {
      if lo <= log[0] < lo + width {
        CountBounded(log, lo, lo + width, k);
      } else {
        assert Spaced(log[1..], k, width);
        SpacedWindows(log[1..], k, width, lo);
      }
    }
  }

  // Among entries a hundred and twenty apart, a whole window lies between.
  lemma DaysSpace(log: seq<int>, days: seq<int>)
    requires Windows(log, days)
    ensures Spaced(log, 2 * DAILY_LIMIT, DAY) && Spaced(days, DAILY_LIMIT, 1)
  {
    forall i, j | 0 <= i && i + 2 * DAILY_LIMIT <= j < |log| ensures log[j] - log[i] >= DAY {
      var m := i + DAILY_LIMIT;
      assert days[i] != days[m] && days[m] != days[j];
    }
  }

  // ---- A sliding day ----

  // The row's day window was opened by an attempt it has counted, or is already over.
  // So it is for every row but one untried within a day of time zero.
  predicate Opened(r: Counters, clock: int) {
    r.dayCount >= 1 || clock >= r.dayStart + DAY
  }

  // A window's first entry stands at its start, unless the window was open before the
  // log began; that one holds fewer than sixty.
  ghost predicate Heads(log: seq<int>, days: seq<int>) {
    |days| == |log| &&
    forall i :: 0 <= i < |days| && (i == 0 || days[i - 1] != days[i]) ==>
      log[i] == days[i] || (i == 0 && (|days| >= DAILY_LIMIT ==> days[DAILY_LIMIT - 1] != days[0]))
  }

  ghost predicate HeadInv(t: Trace, clock: int) {
    && Heads(t.log, t.days)
    && (t.log == [] ==> Opened(t.row, clock))
    && (t.log != [] && t.days[|t.days| - 1] == t.days[0] && t.log[0] != t.days[0] ==> t.row.dayCount >= |t.log| + 1)
  }

  lemma NextKeepsHeads(t: Trace, e: Event, clock: int)
    requires DayInv(t) && HeadInv(t, clock) && Ticks(clock, e)
    ensures HeadInv(Next(t, e), After(clock, e))
  {
  }

  lemma {:induction false} HistoryKeepsHeads(t: Trace, events: seq<Event>, clock: int) returns (last: int)
    requires BurstInv(t, clock) && DayInv(t) && HeadInv(t, clock) && Clocked(clock, events)
    ensures BurstInv(History(t, events), last) && DayInv(History(t, events)) && HeadInv(History(t, events), last)
    decreases |events|
  {
    hide BurstInv, DayInv, HeadInv;
    last := clock;
    if events != [] {
      NextKeepsBurst(t, events[0], clock);
      NextKeepsDay(t, events[0], clock);
      NextKeepsHeads(t, events[0], clock);
      last := HistoryKeepsHeads(Next(t, events[0]), events[1..], After(clock, events[0]));
    }
  }

  // Entries a hundred and nineteen apart are a day apart: only two full windows could
  // hold more, and the first of those opens with its first entry.
  lemma OpenedDaysSpace(log: seq<int>, days: seq<int>)
    requires Windows(log, days) && Heads(log, days)
    ensures Spaced(log, 2 * DAILY_LIMIT - 1, DAY)
  {
    forall i, j | 0 <= i && i + 2 * DAILY_LIMIT - 1 <= j < |log| ensures log[j] - log[i] >= DAY {
      var m := i + DAILY_LIMIT;
      assert days[i] != days[m];
      if days[m] == days[j] {
        assert days[m - 1] != days[j];
        if days[m - 1] == days[i] && i > 0 {
          assert days[i - 1] != days[m - 1];
        }
      }
    }
  }

  // Every 60-second window of every history holds at most five allowed attempts, every
  // day window at most sixty, and every sliding 86,400-second window at most a hundred
  // and nineteen; a hundred and twenty for a row untried within a day of time zero.
  lemma EveryWindowIsBounded(row: Counters, events: seq<Event>, clock: int, lo: int)
    requires Plausible(row) && Clocked(clock, events)
    ensures var t := History(Trace(row, [], []), events);
      && CountIn(t.log, lo, lo + COOLDOWN) <= BURST_LIMIT
      && CountIn(t.days, lo, lo + 1) <= DAILY_LIMIT
      && CountIn(t.log, lo, lo + DAY) <= 2 * DAILY_LIMIT - (if Opened(row, clock) then 1 else 0)
  {
    hide History, Gate, Clocked, CountIn, BurstInv, DayInv;
    var start := Trace(row, [], []);
    NothingYet(row, clock);
    var last := HistoryKeeps(start, events, clock);
    WindowsOf(History(start, events), last, lo);
    if Opened(row, clock) {
      var end := HistoryKeepsHeads(start, events, clock);
      OpenedWindows(History(start, events), end, lo);
    }
  }

  lemma NothingYet(row: Counters, clock: int)
    requires Plausible(row)
    ensures var t := Trace(row, [], []);
      BurstInv(t, clock) && DayInv(t) && (Opened(row, clock) ==> HeadInv(t, clock))
  {
  }

  lemma OpenedWindows(t: Trace, clock: int, lo: int)
    requires DayInv(t) && HeadInv(t, clock)
    ensures CountIn(t.log, lo, lo + DAY) <= 2 * DAILY_LIMIT - 1
  {
    OpenedDaysSpace(t.log, t.days);
    SpacedWindows(t.log, 2 * DAILY_LIMIT - 1, DAY, lo);
  }

  lemma WindowsOf(t: Trace, clock: int, lo: int)
    requires BurstInv(t, clock) && DayInv(t)
    ensures CountIn(t.log, lo, lo + COOLDOWN) <= BURST_LIMIT
    ensures CountIn(t.days, lo, lo + 1) <= DAILY_LIMIT
    ensures CountIn(t.log, lo, lo + DAY) <= 2 * DAILY_LIMIT
  {
    SpacedWindows(t.log, BURST_LIMIT, COOLDOWN, lo);
    DaysSpace(t.log, t.days);
    SpacedWindows(t.days, DAILY_LIMIT, 1, lo);
    SpacedWindows(t.log, 2 * DAILY_LIMIT, DAY, lo);
  }

  lemma {:induction false} CrowdedWindow(log: seq<int>, lo: int, hi: int, k: nat) returns (i: nat, j: nat)
    requires CountIn(log, lo, hi) > k
    ensures i + k <= j < |log| && lo <= log[i] < hi && lo <= log[j] < hi
  {
    if lo <= log[0] < hi {
      i := 0;
      if forall x :: k <= x < |log| ==> !(lo <= log[x] < hi) {
        CountBounded(log, lo, hi, k);
      } else {
        j :| k <= j < |log| && lo <= log[j] < hi;
      }
    } else {
      i, j := CrowdedWindow(log[1..], lo, hi, k);
      i, j := i + 1, j + 1;
    }
  }

  // A sliding day holds more than sixty only by reaching across the start of a new day
  // window; while every entry in it belongs to one window, it stays within sixty.
  lemma ACrowdedDayCrossesAWindow(row: Counters, events: seq<Event>, clock: int, lo: int) returns (i: nat, j: nat)
    requires Plausible(row) && Clocked(clock, events)
    requires CountIn(History(Trace(row, [], []), events).log, lo, lo + DAY) > DAILY_LIMIT
    ensures var t := History(Trace(row, [], []), events);
      && i < j < |t.log| == |t.days| && lo <= t.log[i] < lo + DAY && lo <= t.log[j] < lo + DAY
      && t.days[j] - t.days[i] >= DAY && t.log[i] <= t.days[j] <= t.log[j]
  {
    var t := History(Trace(row, [], []), events);
    var last := HistoryKeeps(Trace(row, [], []), events, clock);
    i, j := CrowdedWindow(t.log, lo, lo + DAY, DAILY_LIMIT);
  }

  // ---- Both bounds are reached ----

  // m attempts at one instant, and n full bursts a cooldown apart.
  function Tries(t: int, m: nat): seq<Event> {
    if m == 0 then [] else [Attempt(t)] + Tries(t, m - 1)
  }

  function Bursts(t: int, n: nat): seq<Event>
    decreases n
  {
    if n == 0 then [] else Tries(t, BURST_LIMIT) + Bursts(t + COOLDOWN, n - 1)
  }

  lemma {:induction false} HistoryOf(t: Trace, a: seq<Event>, b: seq<Event>)
    ensures History(t, a + b) == History(History(t, a), b)
    decreases |a|
  {
    if a == [] {
      assert a + b == b;
    } else {
      assert (a + b)[1..] == a[1..] + b;
      HistoryOf(Next(t, a[0]), a[1..], b);
    }
  }

  lemma {:induction false} CountOneMore(log: seq<int>, x: int, lo: int, hi: int)
    ensures CountIn(log + [x], lo, hi) == CountIn(log, lo, hi) + (if lo <= x < hi then 1 else 0)
  {
    if log == [] {
      assert log + [x] == [x] && [x][1..] == [];
    } else {
      assert (log + [x])[1..] == log[1..] + [x];
      CountOneMore(log[1..], x, lo, hi);
    }
  }

  // Tries within the budget are all allowed and all counted.
  lemma {:induction false} TriesCount(t: Trace, now: int, m: nat, lo: int)
    requires !t.row.locked && now != 0 && now < t.row.dayStart + DAY && lo <= now < lo + DAY
    requires t.row.lastAt == now && t.row.burstCount + m <= BURST_LIMIT && t.row.dayCount + m <= DAILY_LIMIT
    ensures var r := History(t, Tries(now, m));
      && r.row == Counters(false, now, t.row.dayStart, t.row.dayCount + m, t.row.burstCount + m)
      && CountIn(r.log, lo, lo + DAY) == CountIn(t.log, lo, lo + DAY) + m
    decreases m
  {
    if m > 0 {
      CountOneMore(t.log, now, lo, lo + DAY);
      assert Tries(now, m)[1..] == Tries(now, m - 1);
      TriesCount(Next(t, Attempt(now)), now, m - 1, lo);
    }
  }

  // The first of m tries may open a new day.
  lemma FreshTriesCount(t: Trace, now: int, m: nat, lo: int)
    requires !t.row.locked && now != 0 && lo <= now < lo + DAY && 1 <= m <= BURST_LIMIT
    requires (t.row.lastAt == 0 && t.row.burstCount == 0) || now >= t.row.lastAt + COOLDOWN
    requires t.row.lastAt == 0 ==> t.row.burstCount == 0
    requires now >= t.row.dayStart + DAY || t.row.dayCount + m <= DAILY_LIMIT
    ensures var r := History(t, Tries(now, m));
      && r.row == (if now >= t.row.dayStart + DAY then Counters(false, now, now, m, m)
                   else Counters(false, now, t.row.dayStart, t.row.dayCount + m, m))
      && CountIn(r.log, lo, lo + DAY) == CountIn(t.log, lo, lo + DAY) + m
  {
    CountOneMore(t.log, now, lo, lo + DAY);
    assert Tries(now, m)[1..] == Tries(now, m - 1);
    TriesCount(Next(t, Attempt(now)), now, m - 1, lo);
  }

  lemma {:induction false} BurstsCount(t: Trace, now: int, n: nat, lo: int)
    requires !t.row.locked && 0 < now && lo <= now && now + COOLDOWN * n <= lo + DAY
    requires (t.row.lastAt == 0 && t.row.burstCount == 0) || (t.row.lastAt != 0 && now >= t.row.lastAt + COOLDOWN)
    requires t.row.dayCount + BURST_LIMIT * n <= DAILY_LIMIT && now + COOLDOWN * n <= t.row.dayStart + DAY
    ensures var r := History(t, Bursts(now, n));
      && r.row.dayStart == t.row.dayStart && r.row.dayCount == t.row.dayCount + BURST_LIMIT * n && !r.row.locked
      && (n > 0 ==> r.row.lastAt == now + COOLDOWN * (n - 1))
      && (n == 0 ==> r == t)
      && CountIn(r.log, lo, lo + DAY) == CountIn(t.log, lo, lo + DAY) + BURST_LIMIT * n
    decreases n
  {
    if n > 0 {
      FreshTriesCount(t, now, BURST_LIMIT, lo);
      HistoryOf(t, Tries(now, BURST_LIMIT), Bursts(now + COOLDOWN, n - 1));
      BurstsCount(History(t, Tries(now, BURST_LIMIT)), now + COOLDOWN, n - 1, lo);
    }
  }

  // A full day's budget spent from the first instant of a new window.
  lemma NewDayCounts(t: Trace, day: int, lo: int)
    requires !t.row.locked && 0 < day && t.row.lastAt != 0 && day >= t.row.lastAt + COOLDOWN && day == t.row.dayStart + DAY
    requires lo <= day && day + COOLDOWN * 12 <= lo + DAY
    ensures CountIn(History(t, Bursts(day, 12)).log, lo, lo + DAY) == CountIn(t.log, lo, lo + DAY) + DAILY_LIMIT
  {
    hide History, Gate, CountIn;
    FreshTriesCount(t, day, BURST_LIMIT, lo);
    HistoryOf(t, Tries(day, BURST_LIMIT), Bursts(day + COOLDOWN, 11));
    assert Bursts(day, 12) == Tries(day, BURST_LIMIT) + Bursts(day + COOLDOWN, 11);
    BurstsCount(History(t, Tries(day, BURST_LIMIT)), day + COOLDOWN, 11, lo);
  }

  // One attempt opens a window, fifty-nine end it, and sixty begin the next: a hundred
  // and nineteen allowed within one sliding day.
  function TwoDays(start: int): seq<Event> {
    [Attempt(start)] + (Tries(start + DAY - 720, 4) + (Bursts(start + DAY - 660, 11) + Bursts(start + DAY, 12)))
  }

  lemma AHundredAndNineteen(start: int)
    requires start >= DAY
    ensures var fresh' := Counters(false, 0, 0, 0, 0);
      Opened(fresh', start) && Clocked(start, TwoDays(start)) &&
      CountIn(History(Trace(fresh', [], []), TwoDays(start)).log, start + DAY - 720, start + 2 * DAY - 720) == 119
  {
    hide Clocked, Tries, Bursts, CountIn, Gate;
    var t0 := Trace(Counters(false, 0, 0, 0, 0), [], []);
    var lo, day := start + DAY - 720, start + DAY;
    TwoDaysClocked(start);
    var t1 := FirstTry(start, lo);
    FreshTriesCount(t1, lo, 4, lo);
    var t2 := History(t1, Tries(lo, 4));
    BurstsCount(t2, lo + 60, 11, lo);
    var t3 := History(t2, Bursts(lo + 60, 11));
    NewDayCounts(t3, day, lo);
    HistoryOf(t2, Bursts(lo + 60, 11), Bursts(day, 12));
    HistoryOf(t1, Tries(lo, 4), Bursts(lo + 60, 11) + Bursts(day, 12));
    assert [Attempt(start)] + (Tries(lo, 4) + (Bursts(lo + 60, 11) + Bursts(day, 12))) == TwoDays(start);
    HistoryOf(t0, [Attempt(start)], Tries(lo, 4) + (Bursts(lo + 60, 11) + Bursts(day, 12)));
  }

  lemma FirstTry(start: int, lo: int) returns (t: Trace)
    requires DAY <= start < lo
    ensures t == Trace(Counters(false, start, start, 1, 1), [start], [start]) && CountIn(t.log, lo, lo + DAY) == 0
    ensures History(Trace(Counters(false, 0, 0, 0, 0), [], []), [Attempt(start)]) == t
  {
    t := Next(Trace(Counters(false, 0, 0, 0, 0), [], []), Attempt(start));
    assert [Attempt(start)][1..] == [] && [start][1..] == [];
    assert [] + [start] == [start];
  }

  lemma TwoDaysClocked(start: int)
    requires start >= DAY
    ensures Clocked(start, TwoDays(start))
  {
    BurstsClocked(start + DAY, start + DAY, 12);
    assert Bursts(start + DAY, 12) + [] == Bursts(start + DAY, 12);
    BurstsThen(start + DAY - 660, start + DAY - 660, 11, Bursts(start + DAY, 12));
    TriesThen(start + DAY - 720, start + DAY - 720, 4, Bursts(start + DAY - 660, 11) + Bursts(start + DAY, 12));
    assert TwoDays(start)[1..] == Tries(start + DAY - 720, 4) + (Bursts(start + DAY - 660, 11) + Bursts(start + DAY, 12));
  }

  lemma ClockedLater(a: int, b: int, events: seq<Event>)
    requires a <= b && Clocked(b, events)
    ensures Clocked(a, events)
    decreases |events|
  {
    if events != [] && !events[0].Attempt? {
      ClockedLater(a, b, events[1..]);
    }
  }

  lemma {:induction false} TriesThen(from: int, t: int, m: nat, events: seq<Event>)
    requires from <= t && Clocked(t, events)
    ensures Clocked(from, Tries(t, m) + events)
    decreases m
  {
    if m == 0 {
      assert Tries(t, 0) + events == events;
      ClockedLater(from, t, events);
    } else {
      assert (Tries(t, m) + events)[1..] == Tries(t, m - 1) + events;
      TriesThen(t, t, m - 1, events);
    }
  }

  lemma {:induction false} BurstsThen(from: int, t: int, n: nat, events: seq<Event>)
    requires from <= t && Clocked(t + COOLDOWN * n, events)
    ensures Clocked(from, Bursts(t, n) + events)
    decreases n
  {
    if n == 0 {
      assert Bursts(t, 0) + events == events;
      ClockedLater(from, t, events);
    } else {
      assert Bursts(t, n) + events == Tries(t, BURST_LIMIT) + (Bursts(t + COOLDOWN, n - 1) + events);
      BurstsThen(t, t + COOLDOWN, n - 1, events);
      TriesThen(from, t, BURST_LIMIT, Bursts(t + COOLDOWN, n - 1) + events);
    }
  }

  lemma BurstsClocked(from: int, t: int, n: nat)
    requires from <= t
    ensures Clocked(from, Bursts(t, n))
  {
    BurstsThen(from, t, n, []);
    assert Bursts(t, n) + [] == Bursts(t, n);
  }

  // Untried, within a day of time zero, the window open from zero holds sixty of its own.
  lemma AHundredAndTwenty()
    ensures var row, events := Counters(false, 0, 0, 0, 0), Bursts(DAY - 720, 12) + Bursts(DAY, 12);
      !Opened(row, 1) && Clocked(1, events) &&
      CountIn(History(Trace(row, [], []), events).log, DAY - 720, 2 * DAY - 720) == 120
  {
    var t0 := Trace(Counters(false, 0, 0, 0, 0), [], []);
    BurstsClocked(DAY, DAY, 12);
    BurstsThen(1, DAY - 720, 12, Bursts(DAY, 12));
    BurstsCount(t0, DAY - 720, 12, DAY - 720);
    NewDayCounts(History(t0, Bursts(DAY - 720, 12)), DAY, DAY - 720);
    HistoryOf(t0, Bursts(DAY - 720, 12), Bursts(DAY, 12));
  }

  // ---- The refill ----

  // With the burst spent, nothing before the refill instant is allowed and no counter
  // moves, however often the player or the operator tries.
  lemma {:induction false} RefusalsCostNothing(t: Trace, events: seq<Event>, hi: int)
    requires t.row.burstCount >= BURST_LIMIT && (t.row.lastAt == 0 || hi <= t.row.lastAt + COOLDOWN)
    requires forall i :: 0 <= i < |events| && events[i].Attempt? ==> events[i].now < hi
    ensures History(t, events).log == t.log
    ensures History(t, events).row == t.row.(locked := History(t, events).row.locked)
    decreases |events|
  {
    if events != [] {
      RefusalsCostNothing(Next(t, events[0]), events[1..], hi);
    }
  }

  // So, however many refusals came between, the burst refills exactly a cooldown after
  // the last allowed attempt: the first attempt past the refusals is allowed if and
  // only if that long has passed, the name is not locked and the day has budget left.
  // A last attempt at time zero is the exception: the source reads zero as "never".
  lemma TheRefillIsExact(t: Trace, events: seq<Event>, now: int)
    requires t.row.burstCount == BURST_LIMIT
    requires forall i :: 0 <= i < |events| && events[i].Attempt? ==> events[i].now < t.row.lastAt + COOLDOWN
    ensures var r := History(t, events).row;
      Gate(r, now).1 == Allowed <==>
        && t.row.lastAt != 0 && now >= t.row.lastAt + COOLDOWN
        && !r.locked && (t.row.dayCount < DAILY_LIMIT || now >= t.row.dayStart + DAY)
  {
    RefusalsCostNothing(t, events, t.row.lastAt + COOLDOWN);
  }

  // The exception, concretely: five attempts at time zero and the gate never opens again.
  lemma TimeZeroNeverRefills(now: int)
    ensures var start := Trace(Counters(false, 0, 0, 0, 0), [], []);
      var spent := History(start, seq(5, i => Attempt(0)));
      |spent.log| == 5 && Gate(spent.row, now).1 == RateLimited
  {
    var start := Trace(Counters(false, 0, 0, 0, 0), [], []);
    var es := seq(5, i => Attempt(0));
    assert es[1..][1..][1..][1..][1..] == [];
    var t1 := Next(start, es[0]);
    var t2 := Next(t1, es[1..][0]);
    var t3 := Next(t2, es[1..][1..][0]);
    var t4 := Next(t3, es[1..][1..][1..][0]);
    var t5 := Next(t4, es[1..][1..][1..][1..][0]);
    assert History(t5, es[1..][1..][1..][1..][1..]) == t5;
    assert History(t3, es[1..][1..][1..]) == t5;
    assert History(t1, es[1..]) == t5;
  }
}
