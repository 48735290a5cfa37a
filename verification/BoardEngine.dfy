// The two halves of the leaderboard engine together: one viewer's board, made from what
// the cache answered.
module BoardEngine {
  import opened Common
  import opened Leaderboard
  import opened BoardCache

  datatype Engine = Engine(moderation: Moderation, limits: Limits)

  // What Rebuild promises of rows it returns. The source hands rows over richest first,
  // one per save.
  ghost predicate Ranks(g: Engine, r: Reading) {
    RicherFirst(r.source) && Keyed(r.source) && RankedAs(g.moderation, Population(r.source, g.limits, r.at), r.rows)
  }

  // The cache takes from rebuilds what this engine's Rebuild promises.
  ghost predicate Serves(c: Cache, g: Engine) {
    forall r: Reading :: c.promised(r) ==> Ranks(g, r)
  }

  // Get, from the cache's answer on: an error is passed through, rows become a board.
  method Get(g: Engine, answer: Answer, you: SaveRef) returns (r: Result<Board, string>)
    requires answer.outcome.Ok? ==> Ranks(g, answer.outcome.value)
    ensures answer.outcome.Err? ==> r == Err(answer.outcome.error)
    ensures answer.outcome.Ok? ==> r.Ok? && BoardOf(g.moderation, answer.outcome.value.rows, answer.asOf, you, r.value)
  {
    match answer.outcome
    case Err(error) => r := Err(error);
    case Ok(reading) =>
      RankedIsFitForABoard(g.moderation, reading.source, g.limits, reading.at, reading.rows);
      var board := BuildBoard(g.moderation, reading.rows, answer.asOf, you);
      r := Ok(board);
  }

  // The rebuild's half of the bargain: what it ranks may be returned to the cache.
  method Refresh(g: Engine, source: Result<seq<Entry>, string>, now: int) returns (outcome: Outcome)
    requires source.Ok? ==> RicherFirst(source.value) && Keyed(source.value)
    ensures source.Err? ==> outcome == Err(source.error)
    ensures source.Ok? ==> outcome.Ok? && Ranks(g, outcome.value) && outcome.value.source == source.value && outcome.value.at == now
  {
    match source
    case Err(error) => outcome := Err(error);
    case Ok(rows) =>
      var ranked := Rebuild(g.moderation, rows, g.limits, now);
      outcome := Ok(Reading(ranked, rows, now));
  }

  // Whatever the interleaving, every board shown is true of one snapshot of the source:
  // ranks count the strictly richer counted rows of that snapshot, the viewer is there
  // exactly when their row is, and the snapshot is no later than the board says.
  lemma EveryBoardIsTrueOfASnapshot(c: Cache, g: Engine, steps: seq<Step>, i: nat, you: SaveRef, b: Board)
    requires Serves(c, g) && Init(c) && Legal(c, steps) && i < |Run(c, steps).callers|
    requires var a := Given(Run(c, steps), i);
      a.Some? && a.value.outcome.Ok? && BoardOf(g.moderation, a.value.outcome.value.rows, a.value.asOf, you, b)
    ensures var r := Given(Run(c, steps), i).value.outcome.value;
      var pop := Population(r.source, g.limits, r.at);
      && r.at <= b.asOf && b.total == |pop|
      && (forall k :: 0 <= k < |b.top| ==> b.top[k].rank == 1 + Richer(pop, b.top[k].coins))
      && (forall k :: 0 <= k < |b.window| ==> b.window[k].rank == 1 + Richer(pop, b.window[k].coins))
      && (b.you.Some? <==> exists e :: e in r.source && Is(e, you) && Counted(e, g.limits, r.at))
  {
    hide Run, Legal, RankedAs, Richer, Population;
    EveryAnswerKeepsThePromise(c, steps, i);
    var a := Given(Run(c, steps), i).value;
    var r := a.outcome.value;
    assert Ranks(g, r);
    EveryRankCountsTheRicher(g.moderation, r.source, g.limits, r.at, r.rows, a.asOf, you, b);
    YouAppearExactlyWhenCounted(g.moderation, r.source, g.limits, r.at, r.rows, a.asOf, you, b);
  }
}
