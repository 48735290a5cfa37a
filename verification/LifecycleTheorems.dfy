// What the lifecycle invariant gives every run: refinement of an atomic map from
// save key to state, ownership that cannot be regained, exactly one kick, a stop
// channel closed once, a shutdown that empties the registry, and a mutex whose
// holder can always go on.
module LifecycleTheorems {
  import opened Common
  import opened Lifecycle
  import opened LifecycleSafety

  // ---- Runs ----

  ghost predicate Legal<S, C, B>(g: Rules<S, C, B>, w: World<S, B>, steps: seq<Step<C>>)
    decreases |steps|
  {
    steps != [] ==> Enabled(w, steps[0]) && Legal(g, Apply(g, w, steps[0]), steps[1..])
  }

  ghost function Run<S, C, B>(g: Rules<S, C, B>, w: World<S, B>, steps: seq<Step<C>>): World<S, B>
    requires Legal(g, w, steps)
    decreases |steps|
  {
    if steps == [] then w else Run(g, Apply(g, w, steps[0]), steps[1..])
  }

  ghost function Effects<S, C, B>(g: Rules<S, C, B>, w: World<S, B>, steps: seq<Step<C>>): seq<Effect<S, C>>
    requires Legal(g, w, steps)
    decreases |steps|
  {
    if steps == [] then []
    else [EffectOf(g, w, steps[0])] + Effects(g, Apply(g, w, steps[0]), steps[1..])
  }

  // The atomic map at one key: effects on other keys do not touch it.
  function Replay<S, C, B>(g: Rules<S, C, B>, s: Option<S>, es: seq<Effect<S, C>>, k: Key): Option<S>
    decreases |es|
  {
    if es == [] then s else Replay(g, ReplayOne(g, s, es[0], k), es[1..], k)
  }

  function ReplayOne<S, C, B>(g: Rules<S, C, B>, s: Option<S>, e: Effect<S, C>, k: Key): Option<S> {
    match e
    case Stutter => s
    case Create(key, fresh0) => if key == k then Some(fresh0) else s
    case Settle(key, now) => if key == k && s.Some? then Some(g.advance(s.value, now)) else s
    case Act(key, now, c) => if key == k && s.Some? then Some(g.act(g.advance(s.value, now), now, c).0) else s
    case Vanish(key) => if key == k then None else s
  }

  lemma {:induction false} RunKeepsInv<S(!new), C(!new), B>(g: Rules<S, C, B>, w: World<S, B>, steps: seq<Step<C>>)
    requires Lawful(g) && Inv(g, w) && Legal(g, w, steps)
    ensures Inv(g, Run(g, w, steps))
    decreases |steps|
  {
    if steps != [] {
      StepRefines(g, w, steps[0]);
      RunKeepsInv(g, Apply(g, w, steps[0]), steps[1..]);
    }
  }

  // No accepted intent is lost, repeated, or applied to a stale state: after any run
  // a save's state is the replay, in order, of the run's effects on it.
  lemma {:induction false} RunsRefineTheAtomicMap<S(!new), C(!new), B>(
    g: Rules<S, C, B>, w: World<S, B>, steps: seq<Step<C>>, k: Key)
    requires Lawful(g) && Inv(g, w) && Legal(g, w, steps)
    ensures StateOf(g, Run(g, w, steps), k) == Replay(g, StateOf(g, w, k), Effects(g, w, steps), k)
    decreases |steps|
  {
    if steps != [] {
      var w' := Apply(g, w, steps[0]);
      StepRefines(g, w, steps[0]);
      OneEffect(g, w, w', EffectOf(g, w, steps[0]), k);
      RunsRefineTheAtomicMap(g, w', steps[1..], k);
    }
  }

  lemma OneEffect<S(!new), C(!new), B>(g: Rules<S, C, B>, w: World<S, B>, w': World<S, B>, e: Effect<S, C>, k: Key)
    requires Atomic(g, w, w', e)
    ensures StateOf(g, w', k) == ReplayOne(g, StateOf(g, w, k), e, k)
  {
  }

  // From boot: with no actor open for a keyed save, its row alone decodes to the
  // replay of everything accepted since.
  lemma TheRowHoldsTheLastState<S(!new), C(!new), B>(
    g: Rules<S, C, B>, w: World<S, B>, steps: seq<Step<C>>, k: Key)
    requires Lawful(g) && Init(w) && Legal(g, w, steps)
    requires k.Keyed? && k !in Run(g, w, steps).registry
    ensures var w' := Run(g, w, steps);
      (if k in w'.store then g.decode(w'.store[k].payload) else None)
      == Replay(g, if k in w.store then g.decode(w.store[k].payload) else None, Effects(g, w, steps), k)
  {
    InitEstablishes(g, w);
    RunsRefineTheAtomicMap(g, w, steps, k);
  }

  // Rows written by the game carry the board columns of the state they encode.
  ghost predicate BoardsAgree<S, C, B>(g: Rules<S, C, B>, w: World<S, B>) {
    forall k :: k in w.store && g.decode(w.store[k].payload).Some? ==>
      w.store[k].board == g.board(g.decode(w.store[k].payload).value)
  }

  lemma SavedKeepsBoards<S(!new), C(!new), B>(g: Rules<S, C, B>, w: World<S, B>, aid: nat, saved: bool)
    requires Lawful(g) && BoardsAgree(g, w) && aid < |w.actors|
    ensures BoardsAgree(g, Saved(g, w, aid, saved))
  {
  }

  lemma LoadKeepsBoards<S(!new), C(!new), B>(g: Rules<S, C, B>, w: World<S, B>, seed: nat)
    requires Lawful(g) && BoardsAgree(g, w) && w.lock.Loading?
    ensures BoardsAgree(g, DoLoad(g, w, w.lock.key, seed, w.lock.now))
  {
  }

  lemma LoadFailsKeepsBoards<S(!new), C(!new), B>(g: Rules<S, C, B>, w: World<S, B>, seed: nat, inserted: bool)
    requires Lawful(g) && BoardsAgree(g, w) && w.lock.Loading?
    ensures BoardsAgree(g, DoLoadFails(g, w, w.lock.key, seed, w.lock.now, inserted))
  {
  }

  lemma QuietKeepsBoards<S(!new), C(!new), B>(g: Rules<S, C, B>, w: World<S, B>, step: Step<C>)
    requires Enabled(w, step) && !step.Load? && !step.LoadFails? && !step.Release? && !step.Autosave? && !step.FinalFlush?
    ensures Apply(g, w, step).store == w.store
  {
  }

  lemma StepKeepsBoards<S(!new), C(!new), B>(g: Rules<S, C, B>, w: World<S, B>, step: Step<C>)
    requires Lawful(g) && BoardsAgree(g, w) && Enabled(w, step)
    ensures BoardsAgree(g, Apply(g, w, step))
  {
    match step
    case Load(seed) => LoadKeepsBoards(g, w, seed);
    case LoadFails(seed, inserted) => LoadFailsKeepsBoards(g, w, seed, inserted);
    case Release(saved) =>
      var sid := w.lock.sid;
      var aid := w.sessions[sid].aid;
      SavedKeepsBoards(g, Leave(w, sid, aid), aid, saved);
    case Autosave(aid, saved) => SavedKeepsBoards(g, w, aid, saved);
    case FinalFlush(aid) => SavedKeepsBoards(g, w, aid, true);
    case _ => QuietKeepsBoards(g, w, step);
  }

  lemma {:induction false} RunKeepsBoards<S(!new), C(!new), B>(g: Rules<S, C, B>, w: World<S, B>, steps: seq<Step<C>>)
    requires Lawful(g) && BoardsAgree(g, w) && Legal(g, w, steps)
    ensures BoardsAgree(g, Run(g, w, steps))
    decreases |steps|
  {
    if steps != [] {
      StepKeepsBoards(g, w, steps[0]);
      RunKeepsBoards(g, Apply(g, w, steps[0]), steps[1..]);
    }
  }

  // ---- Ownership ----

  predicate Owns<S, B>(w: World<S, B>, sid: nat) {
    sid < |w.sessions| && w.sessions[sid].aid < |w.actors| && w.actors[w.sessions[sid].aid].owner == Some(sid)
  }

  // Two sessions that both may play are the same session, or play different saves.
  lemma OneOwnerPerSave<S(!new), C(!new), B>(g: Rules<S, C, B>, w: World<S, B>, s: nat, t: nat)
    requires Inv(g, w) && Owns(w, s) && Owns(w, t)
    requires w.actors[w.sessions[s].aid].key == w.actors[w.sessions[t].aid].key
    ensures s == t
    // ... and the owner's actor is the registered one, with its stop channel open.
    ensures w.registry[w.actors[w.sessions[s].aid].key] == w.sessions[s].aid
    ensures !w.actors[w.sessions[s].aid].stop
  {
  }

  // Most steps touch no session and no owner.
  predicate Quiet<C>(step: Step<C>) {
    !step.Join? && !step.Release? && !step.SweepKick? && !step.FinishDetach?
  }

  ghost predicate SameOwners<S, B>(w: World<S, B>, w': World<S, B>) {
    && w'.sessions == w.sessions && |w.actors| <= |w'.actors|
    && (forall a :: 0 <= a < |w.actors| ==> w'.actors[a].owner == w.actors[a].owner)
  }

  lemma QuietStepsKeepOwners<S(!new), C(!new), B>(g: Rules<S, C, B>, w: World<S, B>, step: Step<C>)
    requires Enabled(w, step) && Quiet(step)
    ensures SameOwners(w, Apply(g, w, step))
  {
  }

  // What a step may do to a session that already exists.
  datatype Fate = Untouched | LeavesByItself | SignedOff(reason: Reason) | Closes

  ghost predicate Meets<S, B>(w: World<S, B>, w': World<S, B>, sid: nat, fate: Fate)
    requires sid < |w.sessions|
  {
    && sid < |w'.sessions|
    && match fate
       case Untouched => w'.sessions[sid] == w.sessions[sid] && Owns(w', sid) == Owns(w, sid)
       case LeavesByItself => w'.sessions[sid] == w.sessions[sid] && Owns(w, sid) && !Owns(w', sid)
       case SignedOff(reason) =>
         Owns(w, sid) && !Owns(w', sid) && w'.sessions[sid] == Session(w.sessions[sid].aid, [reason], true)
       case Closes =>
         !Owns(w, sid) && !Owns(w', sid) && w'.sessions[sid] == DeliverKick(w.sessions[sid], None)
  }

  // Decided by the step alone: a takeover or a sweep signs the owner off, a Detach
  // lets its own session go, and nothing else ends ownership.
  function FateOf<S, C, B>(w: World<S, B>, step: Step<C>, sid: nat): Fate
    requires Enabled(w, step)
  {
    match step
    case Join =>
      if w.actors[w.lock.aid].owner == Some(sid) && !Refused(w.actors[w.lock.aid], w.policy) then SignedOff(TakenOver)
      else Untouched
    case Release(_) => if w.lock.sid == sid && Owns(w, sid) then LeavesByItself else Untouched
    case SweepKick(_, aid) =>
      if w.actors[aid].owner == Some(sid)
      then SignedOff(if w.actors[aid].key.Guest? then GuestEnding else ServerClosing)
      else Untouched
    case FinishDetach(s) => if s == sid then Closes else Untouched
    case _ => Untouched
  }

  lemma SignOffMeets<S(!new), C(!new), B>(g: Rules<S, C, B>, w: World<S, B>, aid: nat, reason: Reason, sid: nat)
    requires Inv(g, w) && aid < |w.actors| && sid < |w.sessions|
    ensures Meets(w, SignOff(w, aid, reason), sid,
                  if w.actors[aid].owner == Some(sid) then SignedOff(reason) else Untouched)
  {
  }

  lemma JoinMeets<S(!new), C(!new), B>(g: Rules<S, C, B>, w: World<S, B>, sid: nat)
    requires Inv(g, w) && w.lock.Joining? && sid < |w.sessions|
    ensures Meets(w, DoJoin(g, w, w.lock.key, w.lock.aid, w.lock.now), sid, FateOf<S, C, B>(w, Join, sid))
  {
    SignOffMeets(g, w, w.lock.aid, TakenOver, sid);
  }

  lemma ReleaseMeets<S(!new), C(!new), B>(g: Rules<S, C, B>, w: World<S, B>, saved: bool, sid: nat)
    requires Inv(g, w) && Enabled<S, C, B>(w, Release(saved)) && sid < |w.sessions|
    ensures Meets(w, DoRelease(g, w, w.lock.sid, saved), sid, FateOf<S, C, B>(w, Release(saved), sid))
  {
  }

  lemma EverySessionMeetsItsFate<S(!new), C(!new), B>(g: Rules<S, C, B>, w: World<S, B>, step: Step<C>, sid: nat)
    requires Inv(g, w) && Enabled(w, step) && sid < |w.sessions|
    ensures Meets(w, Apply(g, w, step), sid, FateOf(w, step, sid))
  {
    match step
    case Join => JoinMeets(g, w, sid);
    case Release(saved) => ReleaseMeets(g, w, saved, sid);
    case SweepKick(i, aid) =>
      SignOffMeets(g, w, aid, if w.actors[aid].key.Guest? then GuestEnding else ServerClosing, sid);
    case FinishDetach(_) =>
    case _ => QuietStepsKeepOwners(g, w, step);
  }

  // Only a session that does not exist yet can become an owner.
  lemma OwnershipIsNeverRegained<S(!new), C(!new), B>(g: Rules<S, C, B>, w: World<S, B>, step: Step<C>, sid: nat)
    requires Inv(g, w) && Enabled(w, step)
    requires sid < |w.sessions| && !Owns(w, sid)
    ensures sid < |Apply(g, w, step).sessions| && !Owns(Apply(g, w, step), sid)
  {
    EverySessionMeetsItsFate(g, w, step, sid);
  }

  // The snapshot a tick or an intent hands back to its session.
  function Shown<S, C, B>(g: Rules<S, C, B>, w: World<S, B>, step: Step<C>): Option<S>
    requires Enabled(w, step) && (step.Tick? || step.Intent?)
  {
    var aid := w.sessions[step.sid].aid;
    if w.actors[aid].flushed || w.actors[aid].owner != Some(step.sid) then None
    else Some(Apply(g, w, step).actors[aid].state)
  }

  predicate IsPlay<C>(step: Step<C>, sid: nat) { (step.Tick? || step.Intent?) && step.sid == sid }

  // Every tick and intent of this session along the run shows it nothing and changes nothing.
  ghost predicate LockedOut<S, C, B>(g: Rules<S, C, B>, w: World<S, B>, steps: seq<Step<C>>, sid: nat)
    requires Legal(g, w, steps)
    decreases |steps|
  {
    steps != [] ==>
      && (IsPlay(steps[0], sid) ==> Shown(g, w, steps[0]) == None && Apply(g, w, steps[0]) == w)
      && LockedOut(g, Apply(g, w, steps[0]), steps[1..], sid)
  }

  // So a session once replaced can never again read or change the save, on any run.
  lemma {:induction false} ReplacedForGood<S(!new), C(!new), B>(
    g: Rules<S, C, B>, w: World<S, B>, steps: seq<Step<C>>, sid: nat)
    requires Lawful(g) && Inv(g, w) && Legal(g, w, steps) && sid < |w.sessions| && !Owns(w, sid)
    ensures LockedOut(g, w, steps, sid)
    ensures sid < |Run(g, w, steps).sessions| && !Owns(Run(g, w, steps), sid)
    decreases |steps|
  {
    if steps != [] {
      StepRefines(g, w, steps[0]);
      OwnershipIsNeverRegained(g, w, steps[0], sid);
      if IsPlay(steps[0], sid) {
        StrangersChangeNothing(g, w, steps[0]);
      }
      ReplacedForGood(g, Apply(g, w, steps[0]), steps[1..], sid);
    }
  }

  // A notice, once sent, is the only one: a closed session is never written again,
  // so no send can block on the one-place kick channel and no close happens twice.
  lemma {:induction false} ClosedForGood<S(!new), C(!new), B>(
    g: Rules<S, C, B>, w: World<S, B>, steps: seq<Step<C>>, sid: nat)
    requires Lawful(g) && Inv(g, w) && Legal(g, w, steps) && sid < |w.sessions| && w.sessions[sid].closed
    ensures sid < |Run(g, w, steps).sessions| && Run(g, w, steps).sessions[sid] == w.sessions[sid]
    decreases |steps|
  {
    if steps != [] {
      StepRefines(g, w, steps[0]);
      EverySessionMeetsItsFate(g, w, steps[0], sid);
      assert !Owns(w, sid);
      ClosedForGood(g, Apply(g, w, steps[0]), steps[1..], sid);
    }
  }

  // Takeover: the old owner gets exactly one notice, for good, and never plays again.
  lemma TakeoverKicksExactlyOnce<S(!new), C(!new), B>(
    g: Rules<S, C, B>, w: World<S, B>, steps: seq<Step<C>>, sid: nat)
    requires Lawful(g) && Inv(g, w) && w.lock.Joining? && w.policy.Takeover? && w.lock.key.Keyed?
    requires w.actors[w.lock.aid].owner == Some(sid)
    requires Legal(g, w, [Join] + steps)
    ensures sid < |w.sessions| && w.sessions[sid].notices == []
    ensures var w' := Run(g, w, [Join] + steps);
      sid < |w'.sessions| && w'.sessions[sid].notices == [TakenOver] && w'.sessions[sid].closed && !Owns(w', sid)
  {
    var w1 := Apply<S, C, B>(g, w, Join);
    assert ([Join] + steps)[0].Join? && ([Join] + steps)[1..] == steps;
    StepRefines<S, C, B>(g, w, Join);
    EverySessionMeetsItsFate<S, C, B>(g, w, Join, sid);
    ClosedForGood(g, w1, steps, sid);
    ReplacedForGood(g, w1, steps, sid);
  }

  // ---- Stopping ----

  lemma QuietStepsLeaveStopAlone<S(!new), C(!new), B>(g: Rules<S, C, B>, w: World<S, B>, step: Step<C>, a: nat)
    requires Enabled(w, step) && Quiet(step) && !step.CloseStop? && a < |w.actors|
    ensures a < |Apply(g, w, step).actors| && Apply(g, w, step).actors[a].stop == w.actors[a].stop
  {
  }

  lemma OthersLeaveStopAlone<S(!new), C(!new), B>(g: Rules<S, C, B>, w: World<S, B>, step: Step<C>, a: nat)
    requires Enabled(w, step) && !step.CloseStop? && a < |w.actors|
    ensures a < |Apply(g, w, step).actors| && Apply(g, w, step).actors[a].stop == w.actors[a].stop
  {
    if Quiet(step) {
      QuietStepsLeaveStopAlone(g, w, step, a);
    }
  }

  // The stop channel is closed only by CloseStop, only while open, and only when no
  // session owns the actor; a replaced session's Detach therefore never stops it.
  lemma StopClosesOnceAndOnlyUnowned<S(!new), C(!new), B>(g: Rules<S, C, B>, w: World<S, B>, step: Step<C>, a: nat)
    requires Inv(g, w) && Enabled(w, step) && a < |w.actors|
    ensures a < |Apply(g, w, step).actors|
    ensures w.actors[a].stop ==> Apply(g, w, step).actors[a].stop
    ensures Apply(g, w, step).actors[a].stop && !w.actors[a].stop ==>
              step.CloseStop? && w.lock.aid == a && w.actors[a].owner == None
    // The close is attempted on an open channel only.
    ensures step.CloseStop? && w.lock.aid == a && w.actors[a].stop ==> w.actors[a].done
  {
    if !step.CloseStop? {
      OthersLeaveStopAlone(g, w, step, a);
    }
  }

  lemma AReplacedSessionsDetachStopsNothing<S(!new), C(!new), B>(
    g: Rules<S, C, B>, w: World<S, B>, saved: bool)
    requires Inv(g, w) && Enabled<S, C, B>(w, Release(saved)) && !Owns(w, w.lock.sid)
    ensures var w' := DoRelease(g, w, w.lock.sid, saved);
      && w'.lock.Free? && w'.registry == w.registry && SameOwners(w, w')
      && (forall a :: 0 <= a < |w.actors| ==> w'.actors[a].stop == w.actors[a].stop)
  {
  }

  // The "save is closing" failure of Attach cannot happen.
  lemma JoiningAnActorNeverFails<S(!new), C(!new), B>(g: Rules<S, C, B>, w: World<S, B>)
    requires Inv(g, w) && w.lock.Joining?
    ensures !w.actors[w.lock.aid].flushed && Enabled<S, C, B>(w, Join)
  {
  }

  // ---- Shutdown ----

  ghost predicate Swept(s: Sweep) {
    s.rest == {} && s.current == None
  }

  // Once a sweep has finished, no actor is registered and the mutex admits nobody.
  lemma AFinishedSweepLeavesNothing<S(!new), C(!new), B>(g: Rules<S, C, B>, w: World<S, B>, i: nat)
    requires Inv(g, w) && i < |w.sweeps| && Swept(w.sweeps[i])
    ensures w.registry == map[]
    ensures w.closing && !w.lock.Joining? && !w.lock.Loading?
    ensures forall a :: 0 <= a < |w.actors| ==> w.actors[a].done
  {
    forall k ensures k !in w.registry {
      if k in w.registry {
        StillAhead(w, i, k);
      }
    }
    assert w.registry == map[];
  }

  lemma StillAhead<S(!new), B>(w: World<S, B>, i: nat, k: Key)
    requires SweepsOk(w) && i < |w.sweeps| && k in w.registry
    ensures w.sweeps[i].rest != {} || w.sweeps[i].current.Some?
  {
    assert w.registry[k] in w.sweeps[i].rest || w.sweeps[i].current == Some(w.registry[k]);
  }

  // After closing, Attach admits no session: the set of sessions stays what it was.
  lemma OnlyAttachAdmits<S(!new), C(!new), B>(g: Rules<S, C, B>, w: World<S, B>, step: Step<C>)
    requires Enabled(w, step) && !step.AttachBegin? && !step.Load? && !step.Join?
    ensures w.closing ==> Apply(g, w, step).closing
    ensures |Apply(g, w, step).sessions| == |w.sessions| && |Apply(g, w, step).actors| == |w.actors|
  {
  }

  lemma ClosingStepAdmitsNobody<S(!new), C(!new), B>(g: Rules<S, C, B>, w: World<S, B>, step: Step<C>)
    requires Inv(g, w) && Enabled(w, step) && w.closing
    ensures Apply(g, w, step).closing && |Apply(g, w, step).sessions| == |w.sessions|
    ensures |Apply(g, w, step).actors| == |w.actors|
  {
    if !step.AttachBegin? && !step.Load? && !step.Join? {
      OnlyAttachAdmits(g, w, step);
    }
  }

  lemma {:induction false} ClosingAdmitsNobody<S(!new), C(!new), B>(
    g: Rules<S, C, B>, w: World<S, B>, steps: seq<Step<C>>)
    requires Lawful(g) && Inv(g, w) && Legal(g, w, steps) && w.closing
    ensures Run(g, w, steps).closing
    ensures |Run(g, w, steps).sessions| == |w.sessions| && |Run(g, w, steps).actors| == |w.actors|
    decreases |steps|
  {
    if steps != [] {
      StepRefines(g, w, steps[0]);
      ClosingStepAdmitsNobody(g, w, steps[0]);
      ClosingAdmitsNobody(g, Apply(g, w, steps[0]), steps[1..]);
    }
  }

  // ---- The mutex is always released ----

  // The step that takes the mutex's holder forward.
  function HolderStep<S, B, C>(w: World<S, B>): Step<C>
    requires !w.lock.Free? && (w.lock.Draining? ==> w.lock.aid < |w.actors|)
  {
    match w.lock
    case Loading(_, _) => Load(0)
    case Joining(_, _, _) => Join
    case Releasing(_) => Release(true)
    case Stopping(_, _) => CloseStop
    case Draining(a, _) =>
      if w.actors[a].done then Drained else if w.actors[a].flushed then LoopExit(a) else FinalFlush(a)
  }

  function Distance<S, B>(w: World<S, B>): nat {
    match w.lock
    case Free => 0
    case Loading(_, _) => 2
    case Joining(_, _, _) => 1
    case Releasing(_) => 6
    case Stopping(_, _) => 5
    case Draining(a, _) =>
      if a >= |w.actors| || w.actors[a].done then 1 else if w.actors[a].flushed then 2 else 3
  }

  // The steps that take a held mutex forward: its holder's, and the loop it waits for.
  predicate Pushes<S, B, C>(w: World<S, B>, step: Step<C>) {
    || step.Load? || step.LoadFails? || step.Join? || step.Release? || step.CloseStop? || step.Drained?
    || (w.lock.Draining? && (step == FinalFlush(w.lock.aid) || step == LoopExit(w.lock.aid)))
  }

  // Whoever holds the mutex can go on, by a step that pushes.
  lemma TheHolderCanAlwaysGoOn<S(!new), C(!new), B>(g: Rules<S, C, B>, w: World<S, B>)
    requires Lawful(g) && Inv(g, w) && !w.lock.Free?
    ensures Enabled<S, C, B>(w, HolderStep(w)) && Pushes(w, HolderStep<S, B, C>(w))
  {
  }

  // A step that pushes brings the release nearer, and no other step of any goroutine
  // takes it further away or passes the mutex on.
  lemma EveryStepKeepsTheReleaseNear<S(!new), C(!new), B>(g: Rules<S, C, B>, w: World<S, B>, step: Step<C>)
    requires Lawful(g) && Inv(g, w) && !w.lock.Free? && Enabled(w, step)
    ensures var w' := Apply(g, w, step);
      if Pushes(w, step) then Distance(w') < Distance(w) else w'.lock == w.lock && Distance(w') <= Distance(w)
  {
    if Pushes(w, step) {
      PushingNears(g, w, step);
    } else {
      OthersLeaveTheMutex(g, w, step);
    }
  }

  lemma PushingNears<S(!new), C(!new), B>(g: Rules<S, C, B>, w: World<S, B>, step: Step<C>)
    requires Inv(g, w) && !w.lock.Free? && Enabled(w, step) && Pushes(w, step)
    ensures Distance(Apply(g, w, step)) < Distance(w)
  {
  }

  lemma OthersLeaveTheMutex<S(!new), C(!new), B>(g: Rules<S, C, B>, w: World<S, B>, step: Step<C>)
    requires Inv(g, w) && !w.lock.Free? && Enabled(w, step) && !Pushes(w, step)
    ensures Apply(g, w, step).lock == w.lock && Distance(Apply(g, w, step)) <= Distance(w)
  {
  }

  // The mutex is held before every step of the run.
  ghost predicate Held<S, C, B>(g: Rules<S, C, B>, w: World<S, B>, steps: seq<Step<C>>)
    requires Legal(g, w, steps)
    decreases |steps|
  {
    steps != [] ==> !w.lock.Free? && Held(g, Apply(g, w, steps[0]), steps[1..])
  }

  ghost function Pushed<S, C, B>(g: Rules<S, C, B>, w: World<S, B>, steps: seq<Step<C>>): nat
    requires Legal(g, w, steps)
    decreases |steps|
  {
    if steps == [] then 0
    else (if Pushes(w, steps[0]) then 1 else 0) + Pushed(g, Apply(g, w, steps[0]), steps[1..])
  }

  // However goroutines interleave, the mutex is held for at most six steps that push;
  // after any run that held it throughout it is free, or one of those is enabled.
  lemma {:induction false} TheMutexIsReleasedInSixSteps<S(!new), C(!new), B>(
    g: Rules<S, C, B>, w: World<S, B>, steps: seq<Step<C>>)
    requires Lawful(g) && Inv(g, w) && Legal(g, w, steps) && Held(g, w, steps)
    ensures var w' := Run(g, w, steps);
      && Pushed(g, w, steps) + Distance(w') <= Distance(w) <= 6
      && (w'.lock.Free? || exists step: Step<C> :: Enabled(w', step) && Pushes(w', step))
    decreases |steps|
  {
    hide Distance, Enabled, Pushes, Apply;
    AtMostSix(w);
    if steps == [] {
      if !w.lock.Free? {
        TheHolderCanAlwaysGoOn(g, w);
      }
    } else {
      StepRefines(g, w, steps[0]);
      EveryStepKeepsTheReleaseNear(g, w, steps[0]);
      TheMutexIsReleasedInSixSteps(g, Apply(g, w, steps[0]), steps[1..]);
    }
  }

  lemma AtMostSix<S, B>(w: World<S, B>)
    ensures Distance(w) <= 6
  {
  }
}
