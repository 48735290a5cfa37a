// The save lifecycle as a step machine: the registry and its mutex, one actor
// loop per open save, sessions that own or have lost their actor, and the store.
//
// A step is one atomic action of one goroutine: a critical section's entry, one
// store access, one closure run on an actor's loop, one channel close or receive.
// The mutex is a field that also records how far its holder has got, so every
// interleaving of a critical section with intents, ticks, autosaves and shutdown
// sweeps is a run of this machine.
module Lifecycle {
  import opened Common

  datatype Key = Keyed(fingerprint: string, slot: string) | Guest(token: string)

  datatype Policy = Takeover | Refuse

  datatype Reason = TakenOver | ServerClosing | GuestEnding

  // The leaderboard columns written beside the payload.
  datatype Board = Board(coins: int, lifetimeEarnings: int, rebirths: int, farmName: string,
                         contractsCompleted: int, nameStyle: string)

  datatype Row<B> = Row(payload: B, board: Board)

  // What the protocol needs from the engine: S is the save state, C an intent,
  // B an encoded payload. `act` returns the state after the intent and whether
  // it was accepted.
  datatype Rules<!S, !C, !B> = Rules(
    newSave: (nat, int) -> S,
    elapses: (S, int) -> bool,
    advance: (S, int) -> S,
    act: (S, int, C) -> (S, bool),
    encode: S -> B,
    decode: B -> Option<S>,
    board: S -> Board)

  // The three laws the protocol rests on.
  ghost predicate Lawful<S(!new), C(!new), B>(g: Rules<S, C, B>) {
    && (forall s :: g.decode(g.encode(s)) == Some(s))
    && (forall s, now :: !g.elapses(s, now) ==> g.advance(s, now) == s)
    && (forall s, now, c :: !g.act(s, now, c).1 ==> g.act(s, now, c).0 == s)
  }

  // `closed` stands for both the kick channel being closed and kickOnce spent.
  datatype Session = Session(aid: nat, notices: seq<Reason>, closed: bool)

  // stop: the stop channel is closed. flushed: the loop has left its select after
  // the final flush. done: the done channel is closed.
  datatype Actor<S> = Actor(key: Key, state: S, dirty: bool, owner: Option<nat>,
                            stop: bool, flushed: bool, done: bool)

  datatype Cause = ByDetach(sid: nat) | BySweep(sweep: nat)

  // Who holds the mutex and what it does next.
  datatype Lock =
    | Free
    | Loading(key: Key, now: int)
    | Joining(key: Key, aid: nat, now: int)
    | Releasing(sid: nat)
    | Stopping(aid: nat, cause: Cause)
    | Draining(aid: nat, cause: Cause)

  // One Shutdown call's flush goroutine: actors still to visit and the one whose
  // session it has already signed off.
  datatype Sweep = Sweep(rest: set<nat>, current: Option<nat>)

  datatype World<S, B> = World(
    policy: Policy,
    closing: bool,
    lock: Lock,
    registry: map<Key, nat>,
    actors: seq<Actor<S>>,
    sessions: seq<Session>,
    leaving: set<nat>,
    sweeps: seq<Sweep>,
    store: map<Key, Row<B>>)

  datatype Step<C> =
    | AttachBegin(key: Key, seed: nat, now: int)
    | Load(seed: nat)
    | LoadFails(seed: nat, inserted: bool)
    | Join
    | DetachBegin(sid: nat)
    | Release(saved: bool)
    | CloseStop
    | Drained
    | FinishDetach(sid: nat)
    | ShutdownBegin
    | SweepKick(sweep: nat, aid: nat)
    | SweepLock(sweep: nat)
    | Tick(sid: nat, now: int)
    | Intent(sid: nat, now: int, command: C)
    | Autosave(aid: nat, saved: bool)
    | FinalFlush(aid: nat)
    | LoopExit(aid: nat)

  // ---- Closures that run on an actor or a session ----

  function DeliverKick(s: Session, reason: Option<Reason>): Session {
    if s.closed then s
    else Session(s.aid, if reason.Some? then s.notices + [reason.value] else s.notices, true)
  }

  // Whether persist reaches the store, and what it then leaves behind.
  predicate Writes<S, B>(a: Actor<S>, store: map<Key, Row<B>>, saved: bool) {
    a.key.Keyed? && a.dirty && saved && a.key in store
  }

  function PersistActor<S, B>(a: Actor<S>, store: map<Key, Row<B>>, saved: bool): Actor<S> {
    if Writes(a, store, saved) then a.(dirty := false) else a
  }

  function PersistStore<S, C, B>(g: Rules<S, C, B>, a: Actor<S>, store: map<Key, Row<B>>, saved: bool): map<Key, Row<B>> {
    if Writes(a, store, saved) then store[a.key := Row(g.encode(a.state), g.board(a.state))] else store
  }

  function CatchUp<S, C, B>(g: Rules<S, C, B>, a: Actor<S>, now: int): Actor<S> {
    a.(state := g.advance(a.state, now), dirty := a.dirty || g.elapses(a.state, now))
  }

  function RunTick<S, C, B>(g: Rules<S, C, B>, a: Actor<S>, sid: nat, now: int): Actor<S> {
    if a.owner != Some(sid) then a else CatchUp(g, a, now)
  }

  function RunIntent<S, C, B>(g: Rules<S, C, B>, a: Actor<S>, sid: nat, now: int, command: C): Actor<S> {
    if a.owner != Some(sid) then a
    else
      var b := CatchUp(g, a, now);
      var (s, ok) := g.act(b.state, now, command);
      b.(state := s, dirty := b.dirty || ok)
  }

  predicate Refused<S>(a: Actor<S>, policy: Policy) {
    a.owner.Some? && (a.key.Guest? || policy == Refuse)
  }

  function RunJoin<S, C, B>(g: Rules<S, C, B>, a: Actor<S>, sid: nat, now: int): Actor<S> {
    var b := a.(owner := Some(sid));
    if a.key.Guest? then b else CatchUp(g, b, now)
  }

  // ---- Steps ----

  function Spawn<S, B>(w: World<S, B>, key: Key, state: S): World<S, B> {
    w.(actors := w.actors + [Actor(key, state, false, None, false, false, false)],
       registry := w.registry[key := |w.actors|])
  }

  predicate Running<S, B>(w: World<S, B>, aid: nat) {
    aid < |w.actors| && !w.actors[aid].flushed
  }

  predicate Enabled<S, C, B>(w: World<S, B>, step: Step<C>) {
    match step
    case AttachBegin(_, _, _) => w.lock.Free?
    case Load(_) => w.lock.Loading?
    case LoadFails(_, _) => w.lock.Loading?
    case Join => w.lock.Joining? && w.lock.aid < |w.actors| &&
                 (Running(w, w.lock.aid) || w.actors[w.lock.aid].done)
    case DetachBegin(sid) => w.lock.Free? && sid < |w.sessions|
    case Release(_) => w.lock.Releasing? && w.lock.sid < |w.sessions| &&
                       w.sessions[w.lock.sid].aid < |w.actors| &&
                       (Running(w, w.sessions[w.lock.sid].aid) || w.actors[w.sessions[w.lock.sid].aid].done)
    case CloseStop => w.lock.Stopping? && w.lock.aid < |w.actors|
    case Drained => w.lock.Draining? && w.lock.aid < |w.actors| && w.actors[w.lock.aid].done
    case FinishDetach(sid) => sid in w.leaving && sid < |w.sessions|
    case ShutdownBegin => w.lock.Free?
    case SweepKick(i, aid) => i < |w.sweeps| && w.sweeps[i].current.None? && aid in w.sweeps[i].rest &&
                              aid < |w.actors| && (Running(w, aid) || w.actors[aid].done)
    case SweepLock(i) => w.lock.Free? && i < |w.sweeps| && w.sweeps[i].current.Some?
    case Tick(sid, _) => sid < |w.sessions| && w.sessions[sid].aid < |w.actors| &&
                         (Running(w, w.sessions[sid].aid) || w.actors[w.sessions[sid].aid].done)
    case Intent(sid, _, _) => sid < |w.sessions| && w.sessions[sid].aid < |w.actors| &&
                              (Running(w, w.sessions[sid].aid) || w.actors[w.sessions[sid].aid].done)
    case Autosave(aid, _) => Running(w, aid)
    case FinalFlush(aid) => Running(w, aid) && w.actors[aid].stop
    case LoopExit(aid) => aid < |w.actors| && w.actors[aid].flushed && !w.actors[aid].done
  }

  function DoAttachBegin<S, C, B>(g: Rules<S, C, B>, w: World<S, B>, key: Key, seed: nat, now: int): World<S, B> {
    if w.closing then w
    else if key in w.registry then
      if key.Guest? then w else w.(lock := Joining(key, w.registry[key], now))
    else if key.Guest? then Spawn(w, key, g.newSave(seed, now)).(lock := Joining(key, |w.actors|, now))
    else w.(lock := Loading(key, now))
  }

  function DoLoad<S, C, B>(g: Rules<S, C, B>, w: World<S, B>, key: Key, seed: nat, now: int): World<S, B> {
    var born := g.newSave(seed, now);
    var store := if key in w.store then w.store else w.store[key := Row(g.encode(born), g.board(born))];
    match g.decode(store[key].payload)
    case None => w.(store := store, lock := Free)
    case Some(state) => Spawn(w, key, state).(store := store, lock := Joining(key, |w.actors|, now))
  }

  // The store fails: before the row was there, or reading it back after inserting it.
  function DoLoadFails<S, C, B>(
    g: Rules<S, C, B>, w: World<S, B>, key: Key, seed: nat, now: int, inserted: bool): World<S, B>
  {
    var born := g.newSave(seed, now);
    w.(store := if inserted && key !in w.store then w.store[key := Row(g.encode(born), g.board(born))] else w.store,
       lock := Free)
  }

  // Takes the save away from its owner and tells that session why.
  function SignOff<S, B>(w: World<S, B>, aid: nat, reason: Reason): World<S, B>
    requires aid < |w.actors|
  {
    var owner := w.actors[aid].owner;
    if owner.None? || owner.value >= |w.sessions| then w
    else w.(sessions := w.sessions[owner.value := DeliverKick(w.sessions[owner.value], Some(reason))],
            actors := w.actors[aid := w.actors[aid].(owner := None)])
  }

  function DoJoin<S, C, B>(g: Rules<S, C, B>, w: World<S, B>, key: Key, aid: nat, now: int): World<S, B>
    requires aid < |w.actors|
  {
    if w.actors[aid].flushed then w.(registry := w.registry - {key}, lock := Free)
    else if Refused(w.actors[aid], w.policy) then w.(lock := Free)
    else
      Admit(g, SignOff(w, aid, TakenOver), aid, now)
  }

  // Makes a new session the owner and catches the save up to now.
  function Admit<S, C, B>(g: Rules<S, C, B>, w: World<S, B>, aid: nat, now: int): World<S, B>
    requires aid < |w.actors|
  {
    w.(actors := w.actors[aid := RunJoin(g, w.actors[aid], |w.sessions|, now)],
       sessions := w.sessions + [Session(aid, [], false)],
       lock := Free)
  }

  // persist, run on the actor's loop.
  function Saved<S, C, B>(g: Rules<S, C, B>, w: World<S, B>, aid: nat, saved: bool): World<S, B>
    requires aid < |w.actors|
  {
    w.(actors := w.actors[aid := PersistActor(w.actors[aid], w.store, saved)],
       store := PersistStore(g, w.actors[aid], w.store, saved))
  }

  // Detach's closure: give up the save if it is still ours, persist, and go on to
  // stop the actor only in that case.
  function Leave<S, B>(w: World<S, B>, sid: nat, aid: nat): World<S, B>
    requires aid < |w.actors|
  {
    if w.actors[aid].owner == Some(sid)
    then w.(actors := w.actors[aid := w.actors[aid].(owner := None)], lock := Stopping(aid, ByDetach(sid)))
    else w.(lock := Free, leaving := w.leaving + {sid})
  }

  function DoRelease<S, C, B>(g: Rules<S, C, B>, w: World<S, B>, sid: nat, saved: bool): World<S, B>
    requires sid < |w.sessions| && w.sessions[sid].aid < |w.actors|
  {
    var aid := w.sessions[sid].aid;
    if w.actors[aid].flushed then w.(lock := Free, leaving := w.leaving + {sid})
    else Saved(g, Leave(w, sid, aid), aid, saved)
  }

  // stopActorLocked's tail and what its caller does after unlocking.
  function Unregister<S, B>(w: World<S, B>, aid: nat, cause: Cause): World<S, B>
    requires aid < |w.actors|
  {
    var key := w.actors[aid].key;
    var registry := if key in w.registry && w.registry[key] == aid then w.registry - {key} else w.registry;
    match cause
    case ByDetach(sid) => w.(registry := registry, lock := Free, leaving := w.leaving + {sid})
    case BySweep(i) =>
      w.(registry := registry, lock := Free,
         sweeps := if i < |w.sweeps| then w.sweeps[i := w.sweeps[i].(current := None)] else w.sweeps)
  }

  function DoCloseStop<S, B>(w: World<S, B>, aid: nat, cause: Cause): World<S, B>
    requires aid < |w.actors|
  {
    if w.actors[aid].done then Unregister(w, aid, cause)
    else w.(actors := w.actors[aid := w.actors[aid].(stop := true)], lock := Draining(aid, cause))
  }

  function DoSweepKick<S, B>(w: World<S, B>, i: nat, aid: nat): World<S, B>
    requires i < |w.sweeps| && aid < |w.actors|
  {
    var reason := if w.actors[aid].key.Guest? then GuestEnding else ServerClosing;
    var v := if w.actors[aid].flushed then w else SignOff(w, aid, reason);
    SweepMark(v, i, aid)
  }

  function SweepMark<S, B>(w: World<S, B>, i: nat, aid: nat): World<S, B>
    requires i < |w.sweeps|
  {
    w.(sweeps := w.sweeps[i := Sweep(w.sweeps[i].rest - {aid}, Some(aid))])
  }

  function Apply<S, C, B>(g: Rules<S, C, B>, w: World<S, B>, step: Step<C>): World<S, B>
    requires Enabled(w, step)
  {
    match step
    case AttachBegin(key, seed, now) => DoAttachBegin(g, w, key, seed, now)
    case Load(seed) => DoLoad(g, w, w.lock.key, seed, w.lock.now)
    case LoadFails(seed, inserted) => DoLoadFails(g, w, w.lock.key, seed, w.lock.now, inserted)
    case Join => DoJoin(g, w, w.lock.key, w.lock.aid, w.lock.now)
    case DetachBegin(sid) => w.(lock := Releasing(sid))
    case Release(saved) => DoRelease(g, w, w.lock.sid, saved)
    case CloseStop => DoCloseStop(w, w.lock.aid, w.lock.cause)
    case Drained => Unregister(w, w.lock.aid, w.lock.cause)
    case FinishDetach(sid) =>
      w.(leaving := w.leaving - {sid}, sessions := w.sessions[sid := DeliverKick(w.sessions[sid], None)])
    case ShutdownBegin => w.(closing := true, sweeps := w.sweeps + [Sweep(w.registry.Values, None)])
    case SweepKick(i, aid) => DoSweepKick(w, i, aid)
    case SweepLock(i) => w.(lock := Stopping(w.sweeps[i].current.value, BySweep(i)))
    case Tick(sid, now) =>
      var aid := w.sessions[sid].aid;
      if w.actors[aid].flushed then w
      else w.(actors := w.actors[aid := RunTick(g, w.actors[aid], sid, now)])
    case Intent(sid, now, command) =>
      var aid := w.sessions[sid].aid;
      if w.actors[aid].flushed then w
      else w.(actors := w.actors[aid := RunIntent(g, w.actors[aid], sid, now, command)])
    case Autosave(aid, saved) => Saved(g, w, aid, saved)
    case FinalFlush(aid) =>
      var v := Saved(g, w, aid, true);
      v.(actors := v.actors[aid := v.actors[aid].(flushed := true)])
    case LoopExit(aid) => w.(actors := w.actors[aid := w.actors[aid].(done := true)])
  }

  predicate Init<S, B>(w: World<S, B>) {
    && !w.closing && w.lock.Free? && w.registry == map[] && w.actors == [] && w.sessions == []
    && w.leaving == {} && w.sweeps == []
    && (forall k :: k in w.store ==> k.Keyed?)
  }

  // ---- What a save's state is at an instant ----

  // The open actor's state if there is one, otherwise what the row decodes to.
  function StateOf<S, C, B>(g: Rules<S, C, B>, w: World<S, B>, k: Key): Option<S> {
    if k in w.registry && w.registry[k] < |w.actors| then Some(w.actors[w.registry[k]].state)
    else if k in w.store then g.decode(w.store[k].payload)
    else None
  }

  // The atomic map the protocol refines.
  datatype Effect<S, C> =
    | Stutter
    | Create(key: Key, state: S)
    | Settle(key: Key, now: int)
    | Act(key: Key, now: int, command: C)
    | Vanish(key: Key)

  ghost predicate Unmoved<S, C, B>(g: Rules<S, C, B>, w: World<S, B>, w': World<S, B>, except: set<Key>) {
    forall k :: k !in except ==> StateOf(g, w', k) == StateOf(g, w, k)
  }

  ghost predicate Atomic<S, C, B>(g: Rules<S, C, B>, w: World<S, B>, w': World<S, B>, e: Effect<S, C>) {
    match e
    case Stutter => Unmoved(g, w, w', {})
    case Create(k, s) => StateOf(g, w, k) == None && StateOf(g, w', k) == Some(s) && Unmoved(g, w, w', {k})
    case Settle(k, now) =>
      && StateOf(g, w, k).Some?
      && StateOf(g, w', k) == Some(g.advance(StateOf(g, w, k).value, now))
      && Unmoved(g, w, w', {k})
    case Act(k, now, c) =>
      && StateOf(g, w, k).Some?
      && StateOf(g, w', k) == Some(g.act(g.advance(StateOf(g, w, k).value, now), now, c).0)
      && Unmoved(g, w, w', {k})
    case Vanish(k) => k.Guest? && StateOf(g, w', k) == None && Unmoved(g, w, w', {k})
  }

  // Which atomic effect each step has, read off the step and the owner alone.
  function EffectOf<S, C, B>(g: Rules<S, C, B>, w: World<S, B>, step: Step<C>): Effect<S, C>
    requires Enabled(w, step)
  {
    match step
    case AttachBegin(key, seed, now) =>
      if !w.closing && key.Guest? && key !in w.registry then Create(key, g.newSave(seed, now)) else Stutter
    case Load(seed) =>
      if w.lock.key !in w.store then Create(w.lock.key, g.newSave(seed, w.lock.now)) else Stutter
    case LoadFails(seed, inserted) =>
      if inserted && w.lock.key !in w.store then Create(w.lock.key, g.newSave(seed, w.lock.now)) else Stutter
    case Join =>
      var a := w.actors[w.lock.aid];
      if a.key.Guest? || a.flushed || Refused(a, w.policy) then Stutter else Settle(w.lock.key, w.lock.now)
    case Tick(sid, now) =>
      var a := w.actors[w.sessions[sid].aid];
      if a.owner == Some(sid) then Settle(a.key, now) else Stutter
    case Intent(sid, now, c) =>
      var a := w.actors[w.sessions[sid].aid];
      if a.owner == Some(sid) then Act(a.key, now, c) else Stutter
    case Drained =>
      if w.actors[w.lock.aid].key.Guest? then Vanish(w.actors[w.lock.aid].key) else Stutter
    case _ => Stutter
  }
}
