// The board: filter and rank a snapshot, then answer top, you and window for one
// viewer. Ranks and the window are stated against counting definitions that do not
// follow the linear pass.
module Leaderboard {
  import opened Common

  const TOP_SIZE := 10
  const WINDOW_RADIUS := 3

  datatype Entry = Entry(fingerprint: string, slot: string, coins: int, rebirths: int, farmName: string,
                         updatedAt: int, contractsCompleted: int, nameStyle: string)

  datatype Ranked = Ranked(entry: Entry, rank: nat, displayName: string, showSuffix: bool)

  datatype Row = Row(rank: nat, displayName: string, suffix: string, showSuffix: bool,
                     contractsCompleted: int, nameStyle: string, coins: int, rebirths: int, isYou: bool)

  datatype Board = Board(you: Option<Row>, total: nat, top: seq<Row>, window: seq<Row>, asOf: int)

  datatype SaveRef = SaveRef(fingerprint: string, slot: string)

  // Name moderation as the board uses it.
  datatype Moderation = Moderation(filter: string -> (string, bool), generate: string -> string, suffix: string -> string)

  datatype Limits = Limits(activityWindow: int, minCoins: int)

  // ---- What the board means ----

  predicate Counted(r: Entry, limits: Limits, now: int) {
    r.coins >= limits.minCoins && (limits.activityWindow > 0 ==> r.updatedAt > now - limits.activityWindow)
  }

  function Population(rows: seq<Entry>, limits: Limits, now: int): seq<Entry> {
    if rows == [] then []
    else (if Counted(rows[0], limits, now) then [rows[0]] else []) + Population(rows[1..], limits, now)
  }

  predicate RicherFirst(rows: seq<Entry>) {
    forall i, j :: 0 <= i <= j < |rows| ==> rows[i].coins >= rows[j].coins
  }

  // How many of them have strictly more than this.
  function Richer(rows: seq<Entry>, coins: int): nat {
    if rows == [] then 0 else (if rows[0].coins > coins then 1 else 0) + Richer(rows[1..], coins)
  }

  function ShownName(m: Moderation, r: Entry): string {
    var (name, locked) := m.filter(r.farmName);
    if locked then m.generate(r.fingerprint) else name
  }

  ghost predicate RankedAs(m: Moderation, pop: seq<Entry>, ranked: seq<Ranked>) {
    && |ranked| == |pop|
    && forall i :: 0 <= i < |pop| ==>
         && ranked[i].entry == pop[i]
         && ranked[i].rank == 1 + Richer(pop, pop[i].coins)
         && ranked[i].displayName == ShownName(m, pop[i])
         && (ranked[i].showSuffix <==>
               ranked[i].displayName == "" ||
               exists j :: 0 <= j < |pop| && j != i && ShownName(m, pop[j]) == ranked[i].displayName)
  }

  // ---- Rebuild ----

  lemma {:induction false} RicherAppend(a: seq<Entry>, b: seq<Entry>, coins: int)
    ensures Richer(a + b, coins) == Richer(a, coins) + Richer(b, coins)
  {
    if a == [] {
      assert a + b == b;
    } else {
      assert (a + b)[1..] == a[1..] + b;
      RicherAppend(a[1..], b, coins);
    }
  }

  lemma {:induction false} AllRicher(a: seq<Entry>, coins: int)
    ensures (forall i :: 0 <= i < |a| ==> a[i].coins > coins) ==> Richer(a, coins) == |a|
    ensures (forall i :: 0 <= i < |a| ==> a[i].coins <= coins) ==> Richer(a, coins) == 0
  {
    if a != [] {
      AllRicher(a[1..], coins);
    }
  }

  // In a population sorted richest first, a row with `first` strictly richer rows in
  // front of its tie has exactly that many richer rows.
  lemma RankOfTie(pop: seq<Entry>, first: nat, i: nat)
    requires RicherFirst(pop) && first <= i < |pop| && pop[first].coins == pop[i].coins
    requires first == 0 || pop[first - 1].coins > pop[first].coins
    ensures Richer(pop, pop[i].coins) == first
  {
    hide Richer;
    var front, back, coins := pop[..first], pop[first..], pop[i].coins;
    RicherAppend(front, back, coins);
    assert Richer(pop, coins) == Richer(front, coins) + Richer(back, coins) by {
      assert pop == front + back;
    }
    assert forall j :: 0 <= j < |back| ==> back[j].coins <= pop[first].coins;
    AllRicher(front, coins);
    AllRicher(back, coins);
  }

  lemma {:induction false} PopulationAppend(a: seq<Entry>, r: Entry, limits: Limits, now: int)
    ensures Population(a + [r], limits, now) ==
            Population(a, limits, now) + (if Counted(r, limits, now) then [r] else [])
  {
    if a == [] {
      assert a + [r] == [r];
      assert Population([r][1..], limits, now) == [];
    } else {
      assert (a + [r])[1..] == a[1..] + [r];
      PopulationAppend(a[1..], r, limits, now);
    }
  }

  // Filtering keeps the order, and exactly the counted rows.
  lemma {:induction false} PopulationIsTheCountedRows(rows: seq<Entry>, limits: Limits, now: int)
    ensures RicherFirst(rows) ==> RicherFirst(Population(rows, limits, now))
    ensures forall r :: r in Population(rows, limits, now) <==> r in rows && Counted(r, limits, now)
  {
    if rows != [] {
      PopulationIsTheCountedRows(rows[1..], limits, now);
      assert forall r :: r in rows <==> r == rows[0] || r in rows[1..];
      var rest := Population(rows[1..], limits, now);
      if RicherFirst(rows) {
        assert RicherFirst(rows[1..]);
        assert forall r :: r in rest ==> rows[0].coins >= r.coins;
      }
    }
  }

  function Occurrences(names: seq<string>, name: string): nat {
    if names == [] then 0
    else Occurrences(names[..|names| - 1], name) + if names[|names| - 1] == name then 1 else 0
  }

  // A name counted more than once is another row's name too.
  lemma {:induction false} Shared(names: seq<string>, name: string)
    ensures Occurrences(names, name) == 0 <==> name !in names
    ensures Occurrences(names, name) > 1 <==> exists i, j :: 0 <= i < j < |names| && names[i] == name && names[j] == name
  {
    if names != [] {
      var front, last := names[..|names| - 1], |names| - 1;
      Shared(front, name);
      assert names == front + [names[last]];
      if names[last] == name && name in front {
        var i :| 0 <= i < |front| && front[i] == name;
        assert names[i] == name && names[last] == name;
      }
      if i, j :| 0 <= i < j < |names| && names[i] == name && names[j] == name {
        assert names[i] == front[i];
        assert j < last ==> names[j] == front[j];
      }
      if i, j :| 0 <= i < j < |front| && front[i] == name && front[j] == name {
        assert names[i] == name && names[j] == name;
      }
    }
  }

  method SelectRows(rows: seq<Entry>, limits: Limits, now: int) returns (filtered: seq<Entry>)
    ensures filtered == Population(rows, limits, now)
  {
    var filterActivity := limits.activityWindow > 0;
    var cutoff := if filterActivity then now - limits.activityWindow else 0;
    filtered := [];
    for i := 0 to |rows|
      invariant filtered == Population(rows[..i], limits, now)
    {
      var r := rows[i];
      assert rows[..i + 1] == rows[..i] + [r];
      PopulationAppend(rows[..i], r, limits, now);
      if r.coins < limits.minCoins {
        continue;
      }
      if filterActivity && r.updatedAt <= cutoff {
        continue;
      }
      filtered := filtered + [r];
    }
    assert rows[..|rows|] == rows;
  }

  method NameRows(m: Moderation, filtered: seq<Entry>) returns (names: seq<string>, counts: map<string, nat>)
    ensures |names| == |filtered| && forall j :: 0 <= j < |names| ==> names[j] == ShownName(m, filtered[j])
    ensures forall n :: n in names && n != "" ==> n in counts && counts[n] == Occurrences(names, n)
  {
    names, counts := [], map[];
    for i := 0 to |filtered|
      invariant |names| == i
      invariant forall j :: 0 <= j < i ==> names[j] == ShownName(m, filtered[j])
      invariant forall n :: n in counts ==> counts[n] == Occurrences(names, n)
      invariant forall n :: n in names && n != "" ==> n in counts
      invariant "" !in counts
    {
      var (name, locked) := m.filter(filtered[i].farmName);
      if locked {
        name := m.generate(filtered[i].fingerprint);
      }
      ghost var before := names;
      names := names + [name];
      assert names[..|names| - 1] == before;
      if name != "" {
        Shared(before, name);
        counts := counts[name := (if name in counts then counts[name] else 0) + 1];
      }
    }
  }

  method RankRows(filtered: seq<Entry>) returns (ranks: seq<nat>)
    requires RicherFirst(filtered)
    ensures |ranks| == |filtered|
    ensures forall j :: 0 <= j < |ranks| ==> ranks[j] == 1 + Richer(filtered, filtered[j].coins)
  {
    ranks := [];
    var rank := 1;
    for i := 0 to |filtered|
      invariant |ranks| == i && rank >= 1
      invariant i == 0 ==> rank == 1
      invariant i > 0 ==> rank <= i && filtered[rank - 1].coins == filtered[i - 1].coins
      invariant i > 0 ==> rank == 1 || filtered[rank - 2].coins > filtered[rank - 1].coins
      invariant forall j :: 0 <= j < i ==> ranks[j] == 1 + Richer(filtered, filtered[j].coins)
    {
      if i > 0 && filtered[i].coins < filtered[i - 1].coins {
        rank := i + 1;
      }
      RankOfTie(filtered, rank - 1, i);
      ranks := ranks + [rank];
    }
  }

  // The suffix is needed exactly when the name is empty or somebody else's too.
  lemma SuffixMeaning(m: Moderation, pop: seq<Entry>, names: seq<string>, i: nat)
    requires |names| == |pop| && (forall j :: 0 <= j < |names| ==> names[j] == ShownName(m, pop[j])) && i < |pop|
    ensures Occurrences(names, names[i]) > 1 <==>
              exists j :: 0 <= j < |pop| && j != i && ShownName(m, pop[j]) == names[i]
  {
    Shared(names, names[i]);
    if a, b :| 0 <= a < b < |names| && names[a] == names[i] && names[b] == names[i] {
      var j := if a == i then b else a;
      assert ShownName(m, pop[j]) == names[i];
    }
    if j :| 0 <= j < |pop| && j != i && ShownName(m, pop[j]) == names[i] {
      assert names[if i < j then i else j] == names[i] && names[if i < j then j else i] == names[i];
    }
  }

  method Rebuild(m: Moderation, rows: seq<Entry>, limits: Limits, now: int) returns (ranked: seq<Ranked>)
    requires RicherFirst(rows)
    ensures RankedAs(m, Population(rows, limits, now), ranked)
  {
    hide Richer, Population, Occurrences, ShownName;
    var filtered := SelectRows(rows, limits, now);
    PopulationIsTheCountedRows(rows, limits, now);
    var names, counts := NameRows(m, filtered);
    var ranks := RankRows(filtered);
    ranked := [];
    for i := 0 to |filtered|
      invariant |ranked| == i
      invariant forall j :: 0 <= j < i ==>
        ranked[j] == Ranked(filtered[j], ranks[j], names[j], names[j] == "" || Occurrences(names, names[j]) > 1)
    {
      ranked := ranked + [Ranked(filtered[i], ranks[i], names[i], names[i] == "" || counts[names[i]] > 1)];
    }
    forall i | 0 <= i < |filtered|
      ensures ranked[i].showSuffix <==>
        ranked[i].displayName == "" ||
        exists j :: 0 <= j < |filtered| && j != i && ShownName(m, filtered[j]) == ranked[i].displayName
    {
      SuffixMeaning(m, filtered, names, i);
    }
  }

  // ---- One viewer's board ----

  predicate IsYou(r: Ranked, you: SaveRef) {
    you.fingerprint != "" && r.entry.fingerprint == you.fingerprint && r.entry.slot == you.slot
  }

  function Clamp(completed: int): int {
    if completed < 0 then 0 else if completed > 3 then 3 else completed
  }

  function ToRow(m: Moderation, r: Ranked, you: SaveRef): Row {
    Row(r.rank, r.displayName, m.suffix(r.entry.fingerprint), r.showSuffix, Clamp(r.entry.contractsCompleted),
        r.entry.nameStyle, r.entry.coins, r.entry.rebirths, IsYou(r, you))
  }

  // The rows of ranked[lo..hi) as this viewer sees them.
  ghost predicate Slice(m: Moderation, ranked: seq<Ranked>, you: SaveRef, lo: nat, hi: nat, rows: seq<Row>) {
    lo <= hi <= |ranked| && |rows| == hi - lo &&
    forall i :: 0 <= i < |rows| ==> rows[i] == ToRow(m, ranked[lo + i], you)
  }

  // The first row that is the viewer's.
  ghost predicate YouAt(ranked: seq<Ranked>, you: SaveRef, y: nat) {
    y < |ranked| && IsYou(ranked[y], you) && forall i :: 0 <= i < y ==> !IsYou(ranked[i], you)
  }

  function Min(a: nat, b: nat): nat { if a < b then a else b }

  function Max(a: int, b: nat): nat { if a < b then b else a }

  // What buildBoard returns, by cases on where the viewer is.
  ghost predicate BoardOf(m: Moderation, ranked: seq<Ranked>, asOf: int, you: SaveRef, b: Board) {
    && b.total == |ranked| && b.asOf == asOf
    && Slice(m, ranked, you, 0, Min(TOP_SIZE, |ranked|), b.top)
    && ((forall i :: 0 <= i < |ranked| ==> !IsYou(ranked[i], you)) ==> b.you == None && b.window == [])
    && (forall y: nat :: YouAt(ranked, you, y) ==>
          && b.you == Some(ToRow(m, ranked[y], you))
          && (ranked[y].rank <= TOP_SIZE ==> b.window == [])
          && (ranked[y].rank > TOP_SIZE ==>
                && y >= TOP_SIZE
                && Slice(m, ranked, you, Max(y - WINDOW_RADIUS, TOP_SIZE), Min(y + WINDOW_RADIUS + 1, |ranked|), b.window)))
  }

  // (fingerprint, slot) is the saves table's key.
  ghost predicate OneRowPerSave(ranked: seq<Ranked>) {
    forall i, j :: 0 <= i < j < |ranked| ==>
      ranked[i].entry.fingerprint != ranked[j].entry.fingerprint || ranked[i].entry.slot != ranked[j].entry.slot
  }

  ghost predicate RankWithinIndex(ranked: seq<Ranked>) {
    forall i :: 0 <= i < |ranked| ==> ranked[i].rank <= i + 1
  }

  // The viewer's index, or -1.
  ghost predicate Located(ranked: seq<Ranked>, you: SaveRef, upTo: nat, youIdx: int)
    requires upTo <= |ranked|
  {
    && -1 <= youIdx < upTo
    && (youIdx == -1 ==> forall j :: 0 <= j < upTo ==> !IsYou(ranked[j], you))
    && (youIdx >= 0 ==> IsYou(ranked[youIdx], you))
  }

  method TopRows(m: Moderation, ranked: seq<Ranked>, topN: nat, you: SaveRef) returns (top: seq<Row>, youIdx: int)
    requires topN <= |ranked|
    ensures Slice(m, ranked, you, 0, topN, top) && Located(ranked, you, topN, youIdx)
  {
    top, youIdx := [], -1;
    for i := 0 to topN
      invariant Slice(m, ranked, you, 0, i, top) && Located(ranked, you, i, youIdx)
    {
      top := top + [ToRow(m, ranked[i], you)];
      if IsYou(ranked[i], you) {
        youIdx := i;
      }
    }
  }

  method FindBelowTop(ranked: seq<Ranked>, topN: nat, you: SaveRef) returns (youIdx: int)
    requires topN <= |ranked| && Located(ranked, you, topN, -1)
    ensures Located(ranked, you, |ranked|, youIdx)
  {
    for i := topN to |ranked|
      invariant Located(ranked, you, i, -1)
    {
      if IsYou(ranked[i], you) {
        return i;
      }
    }
    youIdx := -1;
  }

  method WindowRows(m: Moderation, ranked: seq<Ranked>, youIdx: nat, topN: nat, you: SaveRef) returns (window: seq<Row>)
    requires topN <= youIdx < |ranked|
    ensures Slice(m, ranked, you, Max(youIdx - WINDOW_RADIUS, topN), Min(youIdx + WINDOW_RADIUS + 1, |ranked|), window)
  {
    var lo, hi := youIdx - WINDOW_RADIUS, youIdx + WINDOW_RADIUS;
    if lo < topN {
      lo := topN;
    }
    if hi > |ranked| - 1 {
      hi := |ranked| - 1;
    }
    window := [];
    for i := lo to hi + 1
      invariant Slice(m, ranked, you, lo, i, window)
    {
      window := window + [ToRow(m, ranked[i], you)];
    }
  }

  method BuildBoard(m: Moderation, ranked: seq<Ranked>, asOf: int, you: SaveRef) returns (board: Board)
    requires RankWithinIndex(ranked) && OneRowPerSave(ranked)
    ensures BoardOf(m, ranked, asOf, you, board)
  {
    var topN := if |ranked| > TOP_SIZE then TOP_SIZE else |ranked|;
    var top, youIdx := TopRows(m, ranked, topN, you);
    if youIdx == -1 {
      youIdx := FindBelowTop(ranked, topN, you);
    }
    if youIdx == -1 {
      return Board(None, |ranked|, top, [], asOf);
    }
    OnlyOneIsYou(ranked, you, youIdx);
    var yours := ToRow(m, ranked[youIdx], you);
    if yours.rank <= TOP_SIZE {
      return Board(Some(yours), |ranked|, top, [], asOf);
    }
    var window := WindowRows(m, ranked, youIdx, topN, you);
    board := Board(Some(yours), |ranked|, top, window, asOf);
  }

  // ---- The board against its naive reading ----

  lemma {:induction false} RicherIsAtMostTheRest(pop: seq<Entry>, i: nat)
    requires RicherFirst(pop) && i < |pop|
    ensures Richer(pop, pop[i].coins) <= i
  {
    assert pop == pop[..i] + pop[i..];
    RicherAppend(pop[..i], pop[i..], pop[i].coins);
    AllRicher(pop[i..], pop[i].coins);
    RicherLength(pop[..i], pop[i].coins);
  }

  lemma {:induction false} RicherLength(pop: seq<Entry>, coins: int)
    ensures Richer(pop, coins) <= |pop|
  {
    if pop != [] {
      RicherLength(pop[1..], coins);
    }
  }

  ghost predicate Keyed(rows: seq<Entry>) {
    forall i, j :: 0 <= i < j < |rows| ==>
      rows[i].fingerprint != rows[j].fingerprint || rows[i].slot != rows[j].slot
  }

  lemma {:induction false} PopulationStaysKeyed(rows: seq<Entry>, limits: Limits, now: int)
    requires Keyed(rows)
    ensures Keyed(Population(rows, limits, now))
  {
    if rows != [] {
      assert Keyed(rows[1..]);
      PopulationStaysKeyed(rows[1..], limits, now);
      PopulationIsTheCountedRows(rows[1..], limits, now);
      var rest := Population(rows[1..], limits, now);
      forall j | 0 <= j < |rest| ensures rest[j].fingerprint != rows[0].fingerprint || rest[j].slot != rows[0].slot {
        assert rest[j] in rows[1..];
      }
    }
  }

  // What Rebuild gives BuildBoard.
  lemma RankedIsFitForABoard(m: Moderation, rows: seq<Entry>, limits: Limits, now: int, ranked: seq<Ranked>)
    requires RicherFirst(rows) && Keyed(rows) && RankedAs(m, Population(rows, limits, now), ranked)
    ensures RankWithinIndex(ranked) && OneRowPerSave(ranked)
  {
    var pop := Population(rows, limits, now);
    PopulationIsTheCountedRows(rows, limits, now);
    PopulationStaysKeyed(rows, limits, now);
    forall i | 0 <= i < |pop| ensures ranked[i].rank <= i + 1 {
      RicherIsAtMostTheRest(pop, i);
    }
  }

  method Get(m: Moderation, rows: seq<Entry>, limits: Limits, now: int, asOf: int, you: SaveRef) returns (board: Board)
    requires RicherFirst(rows) && Keyed(rows)
    ensures exists ranked :: RankedAs(m, Population(rows, limits, now), ranked) && BoardOf(m, ranked, asOf, you, board)
  {
    var ranked := Rebuild(m, rows, limits, now);
    RankedIsFitForABoard(m, rows, limits, now, ranked);
    board := BuildBoard(m, ranked, asOf, you);
  }

  predicate Is(r: Entry, you: SaveRef) {
    you.fingerprint != "" && r.fingerprint == you.fingerprint && r.slot == you.slot
  }

  // You appear exactly when your row survives the filters.
  lemma YouAppearExactlyWhenCounted(
    m: Moderation, rows: seq<Entry>, limits: Limits, now: int, ranked: seq<Ranked>, asOf: int, you: SaveRef, b: Board)
    requires RankedAs(m, Population(rows, limits, now), ranked) && BoardOf(m, ranked, asOf, you, b)
    ensures b.you.Some? <==> exists r :: r in rows && Is(r, you) && Counted(r, limits, now)
  {
    var pop := Population(rows, limits, now);
    PopulationIsTheCountedRows(rows, limits, now);
    if r :| r in rows && Is(r, you) && Counted(r, limits, now) {
      var i :| 0 <= i < |pop| && pop[i] == r;
      var y := FirstYou(ranked, you, i);
    } else if y :| 0 <= y < |ranked| && IsYou(ranked[y], you) {
      assert pop[y] in rows && Is(pop[y], you);
    }
  }

  lemma {:induction false} FirstYou(ranked: seq<Ranked>, you: SaveRef, i: nat) returns (y: nat)
    requires i < |ranked| && IsYou(ranked[i], you)
    ensures YouAt(ranked, you, y)
    decreases i
  {
    if j :| 0 <= j < i && IsYou(ranked[j], you) {
      y := FirstYou(ranked, you, j);
    } else {
      y := i;
    }
  }

  // Every rank shown is one more than the number of strictly richer counted rows.
  lemma EveryRankCountsTheRicher(
    m: Moderation, rows: seq<Entry>, limits: Limits, now: int, ranked: seq<Ranked>, asOf: int, you: SaveRef, b: Board)
    requires RankedAs(m, Population(rows, limits, now), ranked) && BoardOf(m, ranked, asOf, you, b)
    ensures var pop := Population(rows, limits, now);
      && b.total == |pop| && |b.top| == Min(TOP_SIZE, |pop|)
      && (forall i :: 0 <= i < |b.top| ==> b.top[i].rank == 1 + Richer(pop, b.top[i].coins))
      && (forall i :: 0 <= i < |b.window| ==> b.window[i].rank == 1 + Richer(pop, b.window[i].coins))
      && (b.you.Some? ==> b.you.value.rank == 1 + Richer(pop, b.you.value.coins))
  {
    hide Richer, Population;
    if i :| 0 <= i < |ranked| && IsYou(ranked[i], you) {
      var y := FirstYou(ranked, you, i);
    }
  }

  lemma OnlyOneIsYou(ranked: seq<Ranked>, you: SaveRef, y: nat)
    requires OneRowPerSave(ranked) && y < |ranked| && IsYou(ranked[y], you)
    ensures forall j :: 0 <= j < |ranked| && IsYou(ranked[j], you) ==> j == y
  {
  }

  // Ranked past the tenth place, you stand exactly once in a contiguous window of at
  // most seven rows that shares no save with the top, clipped only at the top and the end.
  lemma TheWindowIsAroundYou(
    m: Moderation, rows: seq<Entry>, limits: Limits, now: int, ranked: seq<Ranked>, asOf: int, you: SaveRef, b: Board)
    returns (lo: nat, y: nat)
    requires RicherFirst(rows) && Keyed(rows)
    requires RankedAs(m, Population(rows, limits, now), ranked) && BoardOf(m, ranked, asOf, you, b)
    requires b.you.Some? && b.you.value.rank > TOP_SIZE
    ensures lo <= y && WindowAround(m, ranked, you, b, lo, y)
    ensures forall i, j :: 0 <= i < TOP_SIZE <= j < |ranked| ==> ranked[i].entry != ranked[j].entry
  {
    RankedIsFitForABoard(m, rows, limits, now, ranked);
    var i :| 0 <= i < |ranked| && IsYou(ranked[i], you);
    y := FirstYou(ranked, you, i);
    lo := Max(y - WINDOW_RADIUS, TOP_SIZE);
    WindowShape(m, ranked, asOf, you, b, y);
  }

  ghost predicate WindowAround(m: Moderation, ranked: seq<Ranked>, you: SaveRef, b: Board, lo: nat, y: nat)
    requires lo <= y
  {
    && |b.top| == TOP_SIZE && (forall i :: 0 <= i < |b.top| ==> !b.top[i].isYou)
    && TOP_SIZE <= lo && y < lo + |b.window| <= |ranked|
    && Slice(m, ranked, you, lo, lo + |b.window|, b.window)
    && (lo == TOP_SIZE || lo == y - WINDOW_RADIUS)
    && (lo + |b.window| == |ranked| || lo + |b.window| == y + WINDOW_RADIUS + 1)
    && Some(b.window[y - lo]) == b.you
    && (forall i :: 0 <= i < |b.window| ==> (b.window[i].isYou <==> i == y - lo))
  }

  lemma WindowShape(m: Moderation, ranked: seq<Ranked>, asOf: int, you: SaveRef, b: Board, y: nat)
    requires OneRowPerSave(ranked) && YouAt(ranked, you, y) && BoardOf(m, ranked, asOf, you, b)
    requires ranked[y].rank > TOP_SIZE
    ensures WindowAround(m, ranked, you, b, Max(y - WINDOW_RADIUS, TOP_SIZE), y)
  {
    OnlyOneIsYou(ranked, you, y);
  }
}
