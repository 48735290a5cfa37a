// The board's cache: at most one rebuild in flight, shared by every caller that
// arrives while it runs. A step machine for any number of callers; each step is one
// critical section, one unlocked write, or one channel operation of one caller.
module BoardCache {
  import opened Common
  import opened Leaderboard

  // What one rebuild ranked: the rows the cache keeps, and, as history, the snapshot of
  // the source they rank and the instant it was ranked for.
  datatype Reading = Reading(rows: seq<Ranked>, source: seq<Entry>, at: int)

  type Outcome = Result<Reading, string>

  // One rebuild's shared record. `rows`, `err` and `at` are the record's fields, `closed`
  // its done channel; the rest is history.
  datatype Build = Build(leader: nat, startedAt: int, outcome: Option<Outcome>, publishedAt: Option<int>,
                         filled: Option<(Outcome, int)>, closed: bool)

  datatype Answer = Answer(outcome: Outcome, asOf: int)

  datatype Caller =
    | Calling(began: int)
    | Waiting(began: int, b: nat)
    | Rebuilding(began: int, b: nat)
    | Returned(began: int, b: nat)   // rebuild has returned, lock not yet taken again
    | Published(began: int, b: nat)  // fields updated and lock released
    | Filled(began: int, b: nat)     // record written, channel still open
    | Served(began: int, at: int, answer: Answer)           // from the cache, at this instant
    | Answered(began: int, b: nat, answer: Answer)          // from a rebuild

  // `promised`: what a rebuild may return.
  datatype Cache = Cache(promised: Reading -> bool, ttl: int, clock: int, ranked: Option<Reading>, builtAt: int, building: Option<nat>,
                         builds: seq<Build>, callers: seq<Caller>)

  datatype Step =
    | Pass(seconds: nat)
    | Call
    | Enter(i: nat)
    | Return(i: nat, outcome: Outcome)
    | Publish(i: nat)
    | Fill(i: nat)
    | Close(i: nat)
    | Wake(i: nat)

  ghost predicate Enabled(c: Cache, s: Step) {
    match s
    case Pass(_) => true
    case Call => true
    case Enter(i) => i < |c.callers| && c.callers[i].Calling?
    case Return(i, outcome) =>
      && i < |c.callers| && c.callers[i].Rebuilding? && c.callers[i].b < |c.builds|
      && (outcome.Ok? ==> c.promised(outcome.value) && c.builds[c.callers[i].b].startedAt <= outcome.value.at <= c.clock)
    case Publish(i) => i < |c.callers| && c.callers[i].Returned? && c.callers[i].b < |c.builds| &&
                       c.builds[c.callers[i].b].outcome.Some?
    case Fill(i) => i < |c.callers| && c.callers[i].Published? && c.callers[i].b < |c.builds| &&
                    c.builds[c.callers[i].b].outcome.Some? && c.builds[c.callers[i].b].publishedAt.Some?
    case Close(i) => i < |c.callers| && c.callers[i].Filled? && c.callers[i].b < |c.builds|
    case Wake(i) => i < |c.callers| && c.callers[i].Waiting? && c.callers[i].b < |c.builds| &&
                    c.builds[c.callers[i].b].closed
  }

  predicate Young(c: Cache) {
    c.building == None && c.ranked.Some? && c.clock - c.builtAt < c.ttl
  }

  function Apply(c: Cache, s: Step): Cache
    requires Enabled(c, s)
  {
    match s
    case Pass(seconds) => c.(clock := c.clock + seconds)
    case Call => c.(callers := c.callers + [Calling(c.clock)])
    case Enter(i) =>
      var began := c.callers[i].began;
      if Young(c) then
        c.(callers := c.callers[i := Served(began, c.clock, Answer(Ok(c.ranked.value), c.builtAt))])
      else if c.building.Some? then c.(callers := c.callers[i := Waiting(began, c.building.value)])
      else
        c.(builds := c.builds + [Build(i, c.clock, None, None, None, false)],
           building := Some(|c.builds|),
           callers := c.callers[i := Rebuilding(began, |c.builds|)])
    case Return(i, outcome) =>
      var b := c.callers[i].b;
      c.(builds := c.builds[b := c.builds[b].(outcome := Some(outcome))],
         callers := c.callers[i := Returned(c.callers[i].began, b)])
    case Publish(i) =>
      var b := c.callers[i].b;
      var outcome := c.builds[b].outcome.value;
      c.(ranked := if outcome.Ok? then Some(outcome.value) else c.ranked,
         builtAt := if outcome.Ok? then c.clock else c.builtAt,
         building := None,
         builds := c.builds[b := c.builds[b].(publishedAt := Some(c.clock))],
         callers := c.callers[i := Published(c.callers[i].began, b)])
    case Fill(i) =>
      var b := c.callers[i].b;
      c.(builds := c.builds[b := c.builds[b].(filled := Some((c.builds[b].outcome.value, c.builds[b].publishedAt.value)))],
         callers := c.callers[i := Filled(c.callers[i].began, b)])
    case Close(i) =>
      var b := c.callers[i].b;
      c.(builds := c.builds[b := c.builds[b].(closed := true)],
         callers := c.callers[i := Answered(c.callers[i].began, b, Read(c.builds[b]))])
    case Wake(i) =>
      var b := c.callers[i].b;
      c.(callers := c.callers[i := Answered(c.callers[i].began, b, Read(c.builds[b]))])
  }

  // Reading the record's fields; a record nobody has written holds zero values.
  function Read(b: Build): Answer {
    match b.filled
    case Some((outcome, at)) => Answer(outcome, at)
    case None => Answer(Ok(Reading([], [], 0)), 0)
  }

  predicate Init(c: Cache) {
    c.ranked == None && c.building == None && c.builds == [] && c.callers == []
  }

  // ---- The invariant ----

  // How far a build has got is how far its leader has got.
  ghost predicate StageOk(c: Cache, b: nat)
    requires b < |c.builds|
  {
    var x := c.builds[b];
    && x.leader < |c.callers|
    && match c.callers[x.leader]
       case Rebuilding(_, d) => d == b && x.outcome == None && x.publishedAt == None && x.filled == None && !x.closed
       case Returned(_, d) => d == b && x.outcome.Some? && x.publishedAt == None && x.filled == None && !x.closed
       case Published(_, d) => d == b && x.outcome.Some? && x.publishedAt.Some? && x.filled == None && !x.closed
       case Filled(_, d) => d == b && Written(x) && !x.closed
       case Answered(_, d, _) => d == b && Written(x) && x.closed
       case _ => false
  }

  predicate Written(x: Build) {
    x.outcome.Some? && x.publishedAt.Some? && x.filled == Some((x.outcome.value, x.publishedAt.value))
  }

  ghost predicate CallerOk(c: Cache, i: nat)
    requires i < |c.callers|
  {
    && c.callers[i].began <= c.clock
    && match c.callers[i]
       case Calling(_) => true
       case Served(began, at, answer) =>
         began <= at <= c.clock && answer.outcome.Ok? && at - answer.asOf < c.ttl && Good(c, answer)
       case Answered(began, b, answer) =>
         b < |c.builds| && c.builds[b].closed && Written(c.builds[b])
         && answer == Answer(c.builds[b].outcome.value, c.builds[b].publishedAt.value)
         && began <= c.builds[b].publishedAt.value
       case Waiting(began, b) =>
         b < |c.builds| && (c.builds[b].publishedAt.Some? ==> began <= c.builds[b].publishedAt.value)
       case Rebuilding(began, b) => b < |c.builds| && c.builds[b].leader == i
       case Returned(began, b) => b < |c.builds| && c.builds[b].leader == i
       case Published(began, b) => b < |c.builds| && c.builds[b].leader == i && c.builds[b].publishedAt.Some?
                                   && began <= c.builds[b].publishedAt.value
       case Filled(began, b) => b < |c.builds| && c.builds[b].leader == i && c.builds[b].publishedAt.Some?
                                && began <= c.builds[b].publishedAt.value
  }

  // An answer that some successful build published.
  ghost predicate Good(c: Cache, a: Answer) {
    exists b: nat :: b < |c.builds| && c.builds[b].outcome == Some(a.outcome) && c.builds[b].publishedAt == Some(a.asOf)
  }

  ghost predicate LockOk(c: Cache) {
    && (c.building.Some? ==> c.building.value == |c.builds| - 1)
    && (forall b :: 0 <= b < |c.builds| ==> (c.builds[b].publishedAt == None <==> c.building == Some(b)))
    && (c.ranked.Some? ==> Good(c, Answer(Ok(c.ranked.value), c.builtAt)))
    && (c.ranked.Some? ==> c.builtAt <= c.clock)
  }

  ghost predicate TimesOk(c: Cache) {
    && (forall b :: 0 <= b < |c.builds| ==> c.builds[b].startedAt <= c.clock)
    && (forall b :: 0 <= b < |c.builds| && c.builds[b].publishedAt.Some? ==>
          c.builds[b].startedAt <= c.builds[b].publishedAt.value <= c.clock)
    && (forall b :: 0 <= b < |c.builds| && c.builds[b].publishedAt.Some? && c.builds[b].outcome.Some? && c.builds[b].outcome.value.Ok? ==>
          c.ranked.Some? && c.builds[b].publishedAt.value <= c.builtAt)
    // No rebuild starts before the last is published, nor within a TTL of a good one.
    && (forall a, b :: 0 <= a < b < |c.builds| ==>
          && c.builds[a].publishedAt.Some? && c.builds[a].publishedAt.value <= c.builds[b].startedAt
          && (c.builds[a].outcome.Some? && c.builds[a].outcome.value.Ok? ==>
                c.builds[b].startedAt - c.builds[a].publishedAt.value >= c.ttl))
  }

  // Every successful outcome ranks a snapshot taken while its rebuild ran.
  ghost predicate ReadingsOk(c: Cache) {
    forall b :: 0 <= b < |c.builds| && c.builds[b].outcome.Some? && c.builds[b].outcome.value.Ok? ==>
      var r := c.builds[b].outcome.value.value;
      && c.promised(r) && c.builds[b].startedAt <= r.at <= c.clock
      && (c.builds[b].publishedAt.Some? ==> r.at <= c.builds[b].publishedAt.value)
  }

  ghost predicate Inv(c: Cache) {
    && ReadingsOk(c)
    && (forall b: nat :: b < |c.builds| ==> StageOk(c, b))
    && (forall i: nat :: i < |c.callers| ==> CallerOk(c, i))
    && LockOk(c) && TimesOk(c)
  }

  // The caller a step belongs to, and its build, meet their own parts of the invariant.
  lemma Focus(c: Cache, s: Step)
    requires Inv(c) && Enabled(c, s) && !s.Pass? && !s.Call?
    ensures CallerOk(c, s.i)
    ensures !s.Enter? ==> StageOk(c, c.callers[s.i].b)
    ensures s.Return? || s.Publish? || s.Fill? || s.Close? ==> c.builds[c.callers[s.i].b].leader == s.i
  {
  }

  // Builds only gain information.
  ghost predicate Grows(c: Cache, c': Cache) {
    && |c.builds| <= |c'.builds|
    && (forall b :: 0 <= b < |c.builds| ==>
          && (c.builds[b].outcome.Some? ==> c'.builds[b].outcome == c.builds[b].outcome)
          && (c.builds[b].publishedAt.Some? ==> c'.builds[b].publishedAt == c.builds[b].publishedAt)
          && (c.builds[b].filled.Some? ==> c'.builds[b].filled == c.builds[b].filled)
          && (c.builds[b].closed ==> c'.builds[b].closed)
          && (c.builds[b].publishedAt == None && c'.builds[b].publishedAt.Some? ==>
                c'.builds[b].publishedAt == Some(c.clock))
          && c'.builds[b].leader == c.builds[b].leader && c'.builds[b].startedAt == c.builds[b].startedAt)
  }

  lemma BuildsGrow(c: Cache, s: Step)
    requires Inv(c) && Enabled(c, s)
    ensures Grows(c, Apply(c, s))
  {
    if !s.Pass? && !s.Call? {
      Focus(c, s);
    }
  }

  lemma StageKept(c: Cache, s: Step, b: nat)
    requires Inv(c) && Enabled(c, s) && b < |Apply(c, s).builds|
    ensures StageOk(Apply(c, s), b)
  {
    if b < |c.builds| {
      assert StageOk(c, b);
    }
    if !s.Pass? && !s.Call? {
      Focus(c, s);
    }
  }

  lemma GoodKept(c: Cache, c': Cache, a: Answer)
    requires Grows(c, c') && Good(c, a)
    ensures Good(c', a)
  {
    var b: nat :| b < |c.builds| && c.builds[b].outcome == Some(a.outcome) && c.builds[b].publishedAt == Some(a.asOf);
    assert c'.builds[b].outcome == Some(a.outcome) && c'.builds[b].publishedAt == Some(a.asOf);
  }

  lemma BystanderKept(c: Cache, s: Step, i: nat)
    requires Inv(c) && Enabled(c, s) && i < |c.callers| && (s.Pass? || s.Call? || i != s.i)
    ensures CallerOk(Apply(c, s), i)
  {
    BuildsGrow(c, s);
    assert CallerOk(c, i);
    if c.callers[i].Served? {
      GoodKept(c, Apply(c, s), c.callers[i].answer);
    }
  }

  lemma MoverKept(c: Cache, s: Step)
    requires Inv(c) && Enabled(c, s) && !s.Pass? && !s.Call?
    ensures CallerOk(Apply(c, s), s.i)
  {
    Focus(c, s);
    if s.Enter? && c.ranked.Some? {
      BuildsGrow(c, s);
      GoodKept(c, Apply(c, s), Answer(Ok(c.ranked.value), c.builtAt));
    }
  }

  lemma CallerKept(c: Cache, s: Step, i: nat)
    requires Inv(c) && Enabled(c, s) && i < |Apply(c, s).callers|
    ensures CallerOk(Apply(c, s), i)
  {
    if i < |c.callers| {
      if s.Pass? || s.Call? || i != s.i {
        BystanderKept(c, s, i);
      } else {
        MoverKept(c, s);
      }
    }
  }

  lemma LockKept(c: Cache, s: Step)
    requires Inv(c) && Enabled(c, s)
    ensures LockOk(Apply(c, s))
  {
    var c' := Apply(c, s);
    BuildsGrow(c, s);
    if c.ranked.Some? {
      GoodKept(c, c', Answer(Ok(c.ranked.value), c.builtAt));
    }
    if !s.Pass? && !s.Call? {
      Focus(c, s);
      if s.Publish? {
        var b := c.callers[s.i].b;
        assert c'.builds[b].outcome == c.builds[b].outcome && c'.builds[b].publishedAt == Some(c.clock);
      }
    }
  }

  lemma EnterKeepsTimes(c: Cache, s: Step)
    requires Inv(c) && Enabled(c, s) && s.Enter?
    ensures TimesOk(Apply(c, s))
  {
    var builds := Apply(c, s).builds;
    if builds != c.builds {
      AllPublished(c);
      assert builds == c.builds + [Build(s.i, c.clock, None, None, None, false)];
    }
  }

  // With nothing in flight every build is over, and a good one is a TTL old.
  lemma AllPublished(c: Cache)
    requires LockOk(c) && TimesOk(c) && c.building == None && !Young(c)
    ensures forall b :: 0 <= b < |c.builds| ==> c.builds[b].publishedAt.Some?
    ensures forall b :: 0 <= b < |c.builds| && c.builds[b].outcome.Some? && c.builds[b].outcome.value.Ok? ==>
              c.clock - c.builds[b].publishedAt.value >= c.ttl
  {
  }

  lemma PublishKeepsTimes(c: Cache, s: Step)
    requires Inv(c) && Enabled(c, s) && s.Publish?
    ensures TimesOk(Apply(c, s))
  {
    Focus(c, s);
  }

  lemma TimesKept(c: Cache, s: Step)
    requires Inv(c) && Enabled(c, s)
    ensures TimesOk(Apply(c, s))
  {
    if s.Enter? {
      EnterKeepsTimes(c, s);
    } else if s.Publish? {
      PublishKeepsTimes(c, s);
    } else if !s.Pass? && !s.Call? {
      BuildsGrow(c, s);
      Focus(c, s);
    }
  }

  lemma ReadingsKept(c: Cache, s: Step)
    requires Inv(c) && Enabled(c, s)
    ensures ReadingsOk(Apply(c, s))
  {
    hide LockOk, TimesOk;
    if !s.Pass? && !s.Call? {
      Focus(c, s);
    }
  }

  lemma StepKeeps(c: Cache, s: Step)
    requires Inv(c) && Enabled(c, s)
    ensures Inv(Apply(c, s))
  {
    forall b: nat | b < |Apply(c, s).builds| ensures StageOk(Apply(c, s), b) {
      StageKept(c, s, b);
    }
    forall i: nat | i < |Apply(c, s).callers| ensures CallerOk(Apply(c, s), i) {
      CallerKept(c, s, i);
    }
    LockKept(c, s);
    TimesKept(c, s);
    ReadingsKept(c, s);
  }

  // ---- Every run ----

  ghost predicate Legal(c: Cache, steps: seq<Step>)
    decreases |steps|
  {
    steps != [] ==> Enabled(c, steps[0]) && Legal(Apply(c, steps[0]), steps[1..])
  }

  ghost function Run(c: Cache, steps: seq<Step>): Cache
    requires Legal(c, steps)
    decreases |steps|
  {
    if steps == [] then c else Run(Apply(c, steps[0]), steps[1..])
  }

  lemma {:induction false} RunKeeps(c: Cache, steps: seq<Step>)
    requires Inv(c) && Legal(c, steps)
    ensures Inv(Run(c, steps))
    decreases |steps|
  {
    if steps != [] {
      StepKeeps(c, steps[0]);
      RunKeeps(Apply(c, steps[0]), steps[1..]);
    }
  }

  // At most one rebuild runs at a time, and rebuilds are a TTL apart after a good one.
  lemma OneRebuildAtATime(c: Cache, steps: seq<Step>, i: nat, j: nat)
    requires Init(c) && Legal(c, steps)
    requires i < |Run(c, steps).callers| && j < |Run(c, steps).callers|
    requires Run(c, steps).callers[i].Rebuilding? && Run(c, steps).callers[j].Rebuilding?
    ensures i == j
  {
    RunKeeps(c, steps);
    var d := Run(c, steps);
    assert CallerOk(d, i) && CallerOk(d, j);
    assert StageOk(d, d.callers[i].b) && StageOk(d, d.callers[j].b);
  }

  lemma GoodRebuildsAreATtlApart(c: Cache, steps: seq<Step>, a: nat, b: nat)
    requires Init(c) && Legal(c, steps) && a < b < |Run(c, steps).builds|
    requires Run(c, steps).builds[a].outcome.Some? && Run(c, steps).builds[a].outcome.value.Ok?
    ensures var d := Run(c, steps);
      d.builds[a].publishedAt.Some? && d.builds[b].startedAt - d.builds[a].publishedAt.value >= d.ttl
  {
    RunKeeps(c, steps);
  }

  // Every answer is either the rows of a successful rebuild published less than a TTL
  // before it was given, or the outcome, good or bad, of a rebuild published after the
  // call began; in particular no record is read before it is written.
  lemma EveryAnswerIsFreshOrShared(c: Cache, steps: seq<Step>, i: nat)
    requires Init(c) && Legal(c, steps) && i < |Run(c, steps).callers|
    ensures var d := Run(c, steps);
      match d.callers[i]
      case Served(began, at, answer) =>
        && began <= at && at - answer.asOf < d.ttl && answer.outcome.Ok? && Good(d, answer)
      case Answered(began, b, answer) =>
        && b < |d.builds| && Some(answer.outcome) == d.builds[b].outcome
        && Some(answer.asOf) == d.builds[b].publishedAt && began <= answer.asOf
      case _ => true
  {
    RunKeeps(c, steps);
    assert CallerOk(Run(c, steps), i);
  }

  // The answer a caller has been given, if any.
  function Given(c: Cache, i: nat): Option<Answer>
    requires i < |c.callers|
  {
    match c.callers[i]
    case Served(_, _, answer) => Some(answer)
    case Answered(_, _, answer) => Some(answer)
    case _ => None
  }

  lemma {:induction false} RunKeepsPromise(c: Cache, steps: seq<Step>)
    requires Legal(c, steps)
    ensures Run(c, steps).promised == c.promised && Run(c, steps).ttl == c.ttl
    decreases |steps|
  {
    if steps != [] {
      RunKeepsPromise(Apply(c, steps[0]), steps[1..]);
    }
  }

  // Rows in an answer are what a rebuild may return, for a snapshot of the source taken no
  // later than the answer's own time stamp.
  lemma EveryAnswerKeepsThePromise(c: Cache, steps: seq<Step>, i: nat)
    requires Init(c) && Legal(c, steps) && i < |Run(c, steps).callers|
    requires var a := Given(Run(c, steps), i); a.Some? && a.value.outcome.Ok?
    ensures var a := Given(Run(c, steps), i).value;
      c.promised(a.outcome.value) && a.outcome.value.at <= a.asOf
  {
    RunKeeps(c, steps);
    RunKeepsPromise(c, steps);
    var d := Run(c, steps);
    assert CallerOk(d, i);
    if d.callers[i].Served? {
      var a := d.callers[i].answer;
      var b: nat :| b < |d.builds| && d.builds[b].outcome == Some(a.outcome) && d.builds[b].publishedAt == Some(a.asOf);
      assert d.builds[b].outcome.value.Ok?;
    } else {
      assert d.builds[d.callers[i].b].outcome.value.Ok?;
    }
  }

  // The cached rows change only when a rebuild succeeds.
  lemma AFailureKeepsTheLastGoodRows(c: Cache, s: Step)
    requires Inv(c) && Enabled(c, s)
    ensures (Apply(c, s).ranked, Apply(c, s).builtAt) == (c.ranked, c.builtAt) ||
            (s.Publish? && c.builds[c.callers[s.i].b].outcome.value.Ok? &&
             Apply(c, s).ranked == Some(c.builds[c.callers[s.i].b].outcome.value.value))
  {
  }

  // Nobody waits for ever: a caller without an answer can move, or waits on a build
  // whose leader can.
  function Mover(c: Cache, i: nat, outcome: Outcome): Step
    requires i < |c.callers|
  {
    match c.callers[i]
    case Calling(_) => Enter(i)
    case Waiting(_, b) => Wake(i)
    case Rebuilding(_, _) => Return(i, outcome)
    case Returned(_, _) => Publish(i)
    case Published(_, _) => Fill(i)
    case Filled(_, _) => Close(i)
    case _ => Call
  }

  lemma NobodyWaitsForever(c: Cache, i: nat, outcome: Outcome)
    requires Inv(c) && i < |c.callers|
    requires outcome.Ok? ==> c.promised(outcome.value) && outcome.value.at == c.clock
    ensures match c.callers[i]
            case Waiting(_, b) =>
              b < |c.builds| && c.builds[b].leader < |c.callers| && !c.callers[c.builds[b].leader].Waiting? &&
              (Enabled(c, Wake(i)) ||
               (Enabled(c, Mover(c, c.builds[b].leader, outcome)) && !Mover(c, c.builds[b].leader, outcome).Call?))
            case _ => Enabled(c, Mover(c, i, outcome))
  {
    assert CallerOk(c, i);
    if !c.callers[i].Calling? && !c.callers[i].Served? {
      assert StageOk(c, c.callers[i].b);
    }
  }
}
