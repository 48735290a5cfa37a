// The manager's methods as they run, over the actors, handles and table they update in
// place, when no other goroutine comes between: each is a run of the step machine, so
// what holds of every interleaving holds of them.
module Manager {
  import opened Common
  import opened Lifecycle
  import opened LifecycleSafety
  import opened LifecycleTheorems
  import opened SaveActor
  import Id = Identity

  ghost predicate Reached<S, C, B>(g: Rules<S, C, B>, w0: World<S, B>, steps: seq<Step<C>>, w: World<S, B>) {
    Legal(g, w0, steps) && Run(g, w0, steps) == w
  }

  lemma {:induction false} OneMore<S(!new), C(!new), B>(
    g: Rules<S, C, B>, w0: World<S, B>, steps: seq<Step<C>>, w: World<S, B>, step: Step<C>)
    requires Reached(g, w0, steps, w) && Enabled(w, step)
    ensures Reached(g, w0, steps + [step], Apply(g, w, step))
    decreases |steps|
  {
    hide Apply, Enabled;
    if steps == [] {
      assert steps + [step] == [step] && [step][1..] == [];
      assert Run(g, Apply(g, w, step), [step][1..]) == Apply(g, w, step);
    } else {
      assert (steps + [step])[1..] == steps[1..] + [step];
      OneMore(g, Apply(g, w0, steps[0]), steps[1..], w, step);
    }
  }

  lemma {:induction false} Then<S(!new), C(!new), B>(
    g: Rules<S, C, B>, w0: World<S, B>, a: seq<Step<C>>, w1: World<S, B>, b: seq<Step<C>>, w2: World<S, B>)
    requires Reached(g, w0, a, w1) && Reached(g, w1, b, w2)
    ensures Reached(g, w0, a + b, w2)
    decreases |a|
  {
    hide Apply, Enabled;
    if a == [] {
      assert a + b == b;
    } else {
      assert (a + b)[1..] == a[1..] + b;
      Then(g, Apply(g, w0, a[0]), a[1..], w1, b, w2);
    }
  }

  lemma First<S(!new), C(!new), B>(g: Rules<S, C, B>, w: World<S, B>, step: Step<C>)
    requires Enabled(w, step)
    ensures Reached(g, w, [step], Apply(g, w, step))
  {
    hide Apply, Enabled;
    OneMore(g, w, [], w, step);
    assert [] + [step] == [step];
  }

  // ---- Objects and the values they stand for ----

  ghost function Actors<S, C, B>(objects: seq<SaveActor<S, C, B>>): (r: seq<Actor<S>>)
    reads objects
    ensures |r| == |objects| && forall i :: 0 <= i < |objects| ==> r[i] == objects[i].Model()
  {
    if objects == [] then [] else Actors(objects[..|objects| - 1]) + [objects[|objects| - 1].Model()]
  }

  ghost function Sessions(handles: seq<SessionHandle>): (r: seq<Session>)
    reads handles
    ensures |r| == |handles| && forall i :: 0 <= i < |handles| ==> r[i] == handles[i].Model()
  {
    if handles == [] then [] else Sessions(handles[..|handles| - 1]) + [handles[|handles| - 1].Model()]
  }

  // ---- Who asks, and what is answered ----

  datatype Kind = InvalidKind | KeyedKind | GuestKind

  datatype SessionIdentity = SessionIdentity(kind: Kind, guestId: string, fingerprint: string, slot: string)

  predicate ValidGuestId(token: string) {
    |token| == 32 && forall i :: 0 <= i < 32 ==> Id.HexChar(token[i])
  }

  // A slot is a string that sanitising leaves as it is.
  predicate ValidIdentity(id: SessionIdentity) {
    match id.kind
    case KeyedKind => id.fingerprint != "" && Id.IsSlot(id.slot) && id.guestId == ""
    case GuestKind => ValidGuestId(id.guestId) && id.fingerprint == "" && id.slot == ""
    case InvalidKind => false
  }

  function KeyOf(id: SessionIdentity): Key {
    if id.kind.GuestKind? then Guest(id.guestId) else Keyed(id.fingerprint, id.slot)
  }

  // What the store says when asked for the row: it may fail before or after inserting one.
  datatype Answer = Answers | Fails(inserted: bool)

  datatype AttachError =
    | ShuttingDown | InvalidIdentity | GuestWithKey | AccountFailed | StoreFailed | Unreadable | SaveClosing | SaveBusy

  // away: the state the away report's catch-up started from, if one ran.
  datatype Attached<S> = Attached(sid: nat, created: bool, away: Option<S>)

  // Why a keyed save is not joined, if it is not.
  ghost function KeyedVerdict<S, C, B>(g: Rules<S, C, B>, w: World<S, B>, key: Key, answer: Answer): Option<AttachError> {
    if key in w.registry then
      if w.policy.Refuse? && w.registry[key] < |w.actors| && w.actors[w.registry[key]].owner.Some?
      then Some(SaveBusy) else None
    else if answer.Fails? then Some(StoreFailed)
    else if key in w.store && g.decode(w.store[key].payload).None? then Some(Unreadable)
    else None
  }

  // Why this Attach is turned away, if it is. A save that is closing is not among the reasons.
  ghost function Verdict<S, C, B>(g: Rules<S, C, B>, w: World<S, B>, id: SessionIdentity, publicKey: string,
                                  touched: bool, answer: Answer): Option<AttachError>
  {
    var key := KeyOf(id);
    if w.closing then Some(ShuttingDown)
    else if !ValidIdentity(id) then Some(InvalidIdentity)
    else if key.Guest? then
      if publicKey != "" then Some(GuestWithKey) else if key in w.registry then Some(SaveBusy) else None
    else if !touched then Some(AccountFailed)
    else KeyedVerdict(g, w, key, answer)
  }

  class Manager<!S(!new), !C(!new), !B> {
    const rules: Rules<S, C, B>
    const policy: Policy
    const table: SaveTable<B>
    var closing: bool
    var registry: map<Key, nat>
    // Every actor and every session so far; a session's id is its place.
    var actors: seq<SaveActor<S, C, B>>
    var sessions: seq<SessionHandle>
    // Detach calls past the lock and shutdown's flushes under way.
    var leaving: set<nat>
    var sweeps: seq<Sweep>

    ghost predicate Valid()
      reads this`actors, this`sessions, actors, sessions
    {
      && (forall i, j :: 0 <= i < j < |actors| ==> actors[i] != actors[j])
      && (forall i :: 0 <= i < |actors| ==> actors[i].rules == rules)
      && (forall k :: 0 <= k < |sessions| ==> sessions[k].id == k && sessions[k].Valid())
      && Known()
    }

    // Every owner is one of the sessions.
    ghost predicate Known()
      reads this`actors, this`sessions, actors
    {
      forall i :: 0 <= i < |actors| && actors[i].session != null ==>
        actors[i].session.id < |sessions| && sessions[actors[i].session.id] == actors[i].session
    }

    ghost function Model(lock: Lock): World<S, B>
      reads this, actors, sessions, table
    {
      World(policy, closing, lock, registry, Actors(actors), Sessions(sessions), leaving, sweeps, table.rows)
    }

    constructor (rules: Rules<S, C, B>, policy: Policy, rows: map<Key, Row<B>>)
      requires forall k :: k in rows ==> k.Keyed?
      ensures this.rules == rules && Valid() && Init(Model(Free)) && table.rows == rows && fresh(table)
    {
      this.rules, this.policy := rules, policy;
      table := new SaveTable(rows);
      closing, registry, actors, sessions, leaving, sweeps := false, map[], [], [], {}, [];
    }

    // newActor and its registration.
    method Open(key: Key, state: S)
      requires Valid()
      modifies this`actors, this`registry
      ensures Valid() && |actors| == |old(actors)| + 1 && actors[..|old(actors)|] == old(actors)
      ensures fresh(actors[|old(actors)|]) && registry == old(registry)[key := |old(actors)|]
      ensures Actors(actors) == old(Actors(actors)) + [Actor(key, state, false, None, false, false, false)]
    {
      hide Actors, Sessions, SessionHandle.Valid;
      var a := new SaveActor(rules, key, state);
      registry := registry[key := |actors|];
      actors := actors + [a];
    }

    // A running actor's attach closure, offered a new session.
    method Offer(aid: nat, s: SessionHandle, now: int) returns (refused: bool)
      requires Valid() && aid < |actors| && s !in sessions
      modifies actors[aid], sessions
      ensures refused == Refused(old(actors[aid].Model()), policy)
      ensures Actors(actors) == if refused then old(Actors(actors))
                                else old(Actors(actors))[aid := RunJoin(rules, old(actors[aid].Model()), s.id, now)]
      ensures var owner, were := old(actors[aid].Model()).owner, old(Sessions(sessions));
        Sessions(sessions) == if refused || owner.None? then were
                              else were[owner.value := DeliverKick(were[owner.value], Some(TakenOver))]
      ensures forall k :: 0 <= k < |sessions| ==> sessions[k].Valid()
      ensures forall i :: 0 <= i < |actors| ==> actors[i].session == if i == aid && !refused then s else old(actors[i].session)
    {
      hide Refused, RunJoin, Actors, Sessions, CatchUp, DeliverKick, Known;
      OwnerIsKnown(aid);
      refused := actors[aid].Join(s, policy, now);
    }

    // ... and, unless the actor refuses, that session's place among the others.
    method Enter(aid: nat, now: int) returns (refused: bool)
      requires Valid() && aid < |actors|
      modifies this`sessions, actors[aid], sessions
      ensures Valid() && refused == Refused(old(actors[aid].Model()), policy)
      ensures refused ==> sessions == old(sessions) && Actors(actors) == old(Actors(actors)) && Sessions(sessions) == old(Sessions(sessions))
      ensures !refused ==> Actors(actors) == old(Actors(actors))[aid := RunJoin(rules, old(actors[aid].Model()), |old(sessions)|, now)]
      ensures !refused ==> |sessions| == |old(sessions)| + 1 && fresh(sessions[|old(sessions)|])
      ensures !refused ==>
        var owner, were := old(actors[aid].Model()).owner, old(Sessions(sessions));
        Sessions(sessions) == (if owner.None? then were else were[owner.value := DeliverKick(were[owner.value], Some(TakenOver))])
                              + [Session(aid, [], false)]
    {
      hide Refused, RunJoin, Actors, Sessions, DeliverKick, Known, SaveActor.Model;
      var s := new SessionHandle(|sessions|, aid);
      refused := Offer(aid, s, now);
      if refused {
        SameOwnersAreKnown();
        return;
      }
      ghost var told := Sessions(sessions);
      sessions := sessions + [s];
      assert Sessions(sessions) == told + [Session(aid, [], false)];
      NewOwnerIsKnown(aid, s);
    }

    lemma OwnerIsKnown(aid: nat)
      requires Known() && aid < |actors|
      ensures var s := actors[aid].session; s != null ==> s.id < |sessions| && sessions[s.id] == s
    {
    }

    twostate lemma NewOwnerIsKnown(aid: nat, new s: SessionHandle)
      requires old(Known()) && actors == old(actors) && aid < |actors|
      requires sessions == old(sessions) + [s] && s.id == |old(sessions)| && actors[aid].session == s
      requires forall i :: 0 <= i < |actors| && i != aid ==> actors[i].session == old(actors[i].session)
      ensures Known()
    {
    }

    twostate lemma SameOwnersAreKnown()
      requires old(Known()) && actors == old(actors) && sessions == old(sessions)
      requires forall i :: 0 <= i < |actors| ==> actors[i].session == old(actors[i].session) || actors[i].session == null
      ensures Known()
    {
    }

    // The closure Attach runs on the actor: the session now owning the save, if let in.
    method Join(key: Key, aid: nat, now: int) returns (sid: Option<nat>)
      requires Valid() && aid < |actors|
      modifies this`registry, this`sessions, actors[aid], sessions
      ensures Valid() && actors == old(actors)
      ensures Model(Free) == DoJoin(rules, old(Model(Joining(key, aid, now))), key, aid, now)
      ensures sid.Some? <==> !old(actors[aid].flushed) && !Refused(old(actors[aid].Model()), policy)
      ensures sid.Some? ==> sid.value == |old(sessions)| < |sessions| && Owns(Model(Free), sid.value)
      ensures sid.None? ==> sessions == old(sessions)
    {
      hide Refused, RunJoin, Actors, Sessions, DeliverKick, DoJoin, Owns, SessionHandle.Valid, SessionHandle.Model;
      ghost var before := Model(Joining(key, aid, now));
      if actors[aid].flushed {
        registry := registry - {key};
        JoinRefused(rules, before, key, aid, now);
        return None;
      }
      var refused := Enter(aid, now);
      if refused {
        JoinRefused(rules, before, key, aid, now);
        return None;
      }
      JoinAdmitted(rules, before, Model(Free), key, aid, now);
      sid := Some(|sessions| - 1);
    }

    // LoadOrCreateSave and the actor for what it returned; false when the row does not decode.
    method Load(key: Key, seed: nat, now: int) returns (found: bool, created: bool)
      requires Valid()
      modifies this`actors, this`registry, table
      ensures Valid() && |actors| >= |old(actors)| && actors[..|old(actors)|] == old(actors)
      ensures Model(if found then Joining(key, |old(actors)|, now) else Free)
           == DoLoad(rules, old(Model(Loading(key, now))), key, seed, now)
      ensures found ==> registry == old(registry)[key := |old(actors)|] && |actors| == |old(actors)| + 1
      ensures found ==> fresh(actors[|old(actors)|]) && actors[|old(actors)|].session == null
      ensures !found ==> actors == old(actors)
      ensures created == (key !in old(table.rows)) && found == rules.decode(table.rows[key].payload).Some?
      ensures var born := rules.newSave(seed, now);
        table.rows == if created then old(table.rows)[key := Row(rules.encode(born), rules.board(born))] else old(table.rows)
    {
      hide Actors, Sessions;
      created := key !in table.rows;
      if created {
        var born := rules.newSave(seed, now);
        table.Insert(key, rules.encode(born), rules.board(born));
      }
      var state := rules.decode(table.rows[key].payload);
      found := state.Some?;
      if found {
        Open(key, state.value);
      }
    }

    // The store's failure: nothing was written, or a fresh row was and could not be read back.
    method FailToLoad(key: Key, seed: nat, now: int, inserted: bool)
      requires Valid()
      modifies table
      ensures Valid() && Model(Free) == DoLoadFails(rules, old(Model(Loading(key, now))), key, seed, now, inserted)
    {
      hide Actors, Sessions;
      if inserted && key !in table.rows {
        var born := rules.newSave(seed, now);
        table.Insert(key, rules.encode(born), rules.board(born));
      }
    }

    // A guest's farm is born with its session.
    method AttachGuest(key: Key, seed: nat, now: int) returns (r: Attached<S>, ghost steps: seq<Step<C>>)
      requires Lawful(rules) && Valid() && Inv(rules, Model(Free)) && !closing && key.Guest? && key !in registry
      modifies this`actors, this`registry, this`sessions, actors, sessions
      ensures Valid() && Reached(rules, old(Model(Free)), steps, Model(Free)) && Inv(rules, Model(Free))
      ensures r == Attached(|old(sessions)|, true, None) && r.sid < |sessions| && Owns(Model(Free), r.sid)
      ensures StateOf(rules, Model(Free), key) == Some(rules.newSave(seed, now))
    {
      hide Actors, Sessions, Known, Inv, Reached, Lawful, DoJoin, StateOf, Owns;
      ghost var start := Model(Free);
      First(rules, start, AttachBegin(key, seed, now));
      Open(key, rules.newSave(seed, now));
      var aid := registry[key];
      ghost var joining := Model(Joining(key, aid, now));
      ReachedKeepsInv(rules, start, [AttachBegin(key, seed, now)], joining);
      OneMore(rules, start, [AttachBegin(key, seed, now)], joining, Lifecycle.Join);
      steps := [AttachBegin(key, seed, now)] + [Lifecycle.Join];
      JoinedState(rules, joining, key, aid, now);
      var sid := Join(key, aid, now);
      ReachedKeepsInv(rules, start, steps, Model(Free));
      r := Attached(sid.value, true, None);
    }

    // The actor a keyed save is open on, loading it if it is not.
    method OpenSave(key: Key, answer: Answer, seed: nat, now: int)
      returns (r: Result<bool, AttachError>, ghost steps: seq<Step<C>>)
      requires Lawful(rules) && Valid() && Inv(rules, Model(Free)) && !closing && key.Keyed?
      modifies this`actors, this`registry, table
      ensures Valid() && (r.Ok? ==> key in registry && registry[key] < |actors|)
      ensures var lock := if r.Ok? then Joining(key, registry[key], now) else Free;
        Reached(rules, old(Model(Free)), steps, Model(lock)) && Inv(rules, Model(lock))
      ensures |actors| >= |old(actors)| && actors[..|old(actors)|] == old(actors) && (|actors| > |old(actors)| ==> fresh(actors[|old(actors)|]))
      ensures |actors| <= |old(actors)| + 1
      ensures key in old(registry) ==> r.Ok? && Model(Joining(key, registry[key], now)) == old(Model(Free)).(lock := Joining(key, registry[key], now))
      ensures key !in old(registry) ==>
        var verdict := old(KeyedVerdict(rules, Model(Free), key, answer));
        if verdict.Some? then r == Err(verdict.value) else r.Ok? && actors[registry[key]].session == null
      ensures r == Err(Unreadable) ==> Model(Free) == old(Model(Free))
      ensures r.Ok? ==>
        var was := old(StateOf(rules, Model(Free), key));
        r.value == was.None? &&
        StateOf(rules, Model(Joining(key, registry[key], now)), key) == (if was.Some? then was else Some(rules.newSave(seed, now)))
    {
      hide Actors, Sessions, Known, Inv, Reached, Lawful, DoLoad, DoLoadFails, StateOf;
      ghost var start := Model(Free);
      ghost var begin: Step<C> := AttachBegin(key, seed, now);
      First(rules, start, begin);
      steps := [begin];
      if key in registry {
        ReachedKeepsInv(rules, start, steps, Model(Joining(key, registry[key], now)));
        RegisteredIsThere(rules, start, key);
        LockIsNoState(rules, start, Joining(key, registry[key], now), key);
        return Ok(false), steps;
      }
      if answer.Fails? {
        OneMore(rules, start, steps, Model(Loading(key, now)), LoadFails(seed, answer.inserted));
        steps := steps + [LoadFails(seed, answer.inserted)];
        FailToLoad(key, seed, now, answer.inserted);
        ReachedKeepsInv(rules, start, steps, Model(Free));
        return Err(StoreFailed), steps;
      }
      OneMore(rules, start, steps, Model(Loading(key, now)), Lifecycle.Load(seed));
      steps := steps + [Lifecycle.Load(seed)];
      BornDecodes(rules, seed, now);
      LoadedState(rules, Model(Loading(key, now)), key, seed, now);
      LockIsNoState(rules, start, Loading(key, now), key);
      var found, created := Load(key, seed, now);
      ReachedKeepsInv(rules, start, steps, Model(if found then Joining(key, |actors| - 1, now) else Free));
      r := if found then Ok(created) else Err(Unreadable);
    }

    // A keyed save, opened or found open, and joined.
    method AttachKeyed(key: Key, answer: Answer, seed: nat, now: int)
      returns (r: Result<Attached<S>, AttachError>, ghost steps: seq<Step<C>>)
      requires Lawful(rules) && Valid() && Inv(rules, Model(Free)) && !closing && key.Keyed?
      modifies this`actors, this`registry, this`sessions, actors, sessions, table
      ensures Valid() && Reached(rules, old(Model(Free)), steps, Model(Free)) && Inv(rules, Model(Free))
      ensures r.Err? ==> sessions == old(sessions) && (r.error != StoreFailed ==> Model(Free) == old(Model(Free)))
      ensures r.Ok? ==> r.value.sid == |old(sessions)| < |sessions| && Owns(Model(Free), r.value.sid)
      ensures r.Ok? ==>
        var was := old(StateOf(rules, Model(Free), key));
        var from := if was.Some? then was.value else rules.newSave(seed, now);
        && r.value.created == was.None? && r.value.away == Some(from)
        && StateOf(rules, Model(Free), key) == Some(rules.advance(from, now))
      ensures var verdict := old(KeyedVerdict(rules, Model(Free), key, answer));
        if verdict.Some? then r == Err(verdict.value) else r.Ok?
    {
      hide Actors, Sessions, Valid, Inv, Reached, Lawful, DoJoin, StateOf, Owns;
      ghost var start := Model(Free);
      var save, more := OpenSave(key, answer, seed, now);
      steps := more;
      if save.Err? {
        return Err(save.error), steps;
      }
      var aid := registry[key];
      var from, ended := actors[aid].state, actors[aid].flushed;
      ghost var joining := Model(Joining(key, aid, now));
      JoinedState(rules, joining, key, aid, now);
      OneMore(rules, start, steps, joining, Lifecycle.Join);
      steps := steps + [Lifecycle.Join];
      var sid := Join(key, aid, now);
      ReachedKeepsInv(rules, start, steps, Model(Free));
      if sid.None? {
        return Err(if ended then SaveClosing else SaveBusy), steps;
      }
      r := Ok(Attached(sid.value, save.value, Some(from)));
    }

    // Attach, one critical section. Refused for exactly the verdict's reason; otherwise a
    // new session owns the save, created exactly when there was none, and the save is
    // what it was, caught up to now unless it is a guest's.
    method Attach(id: SessionIdentity, publicKey: string, touched: bool, answer: Answer, seed: nat, now: int)
      returns (r: Result<Attached<S>, AttachError>, ghost steps: seq<Step<C>>)
      requires Lawful(rules) && Valid() && Inv(rules, Model(Free))
      modifies this`actors, this`registry, this`sessions, actors, sessions, table
      ensures Valid() && Reached(rules, old(Model(Free)), steps, Model(Free)) && Inv(rules, Model(Free))
      ensures var verdict := old(Verdict(rules, Model(Free), id, publicKey, touched, answer));
        if verdict.Some? then r == Err(verdict.value) else r.Ok?
      ensures r.Err? ==> sessions == old(sessions) && (r.error != StoreFailed ==> Model(Free) == old(Model(Free)))
      ensures r.Ok? ==> r.value.sid == |old(sessions)| < |sessions| && Owns(Model(Free), r.value.sid)
      ensures r.Ok? ==>
        var key, was := KeyOf(id), old(StateOf(rules, Model(Free), KeyOf(id)));
        var from := if was.Some? then was.value else rules.newSave(seed, now);
        && r.value.created == was.None? && r.value.away == (if key.Guest? then None else Some(from))
        && StateOf(rules, Model(Free), key) == Some(if key.Guest? then from else rules.advance(from, now))
    {
      hide Actors, Sessions, Known, Inv, Reached, Lawful, StateOf, Owns, ValidIdentity, KeyedVerdict;
      steps := [];
      Nothing(rules, Model(Free));
      if closing {
        return Err(ShuttingDown), steps;
      }
      if !ValidIdentity(id) {
        return Err(InvalidIdentity), steps;
      }
      var key := KeyOf(id);
      if key.Guest? {
        if publicKey != "" {
          return Err(GuestWithKey), steps;
        }
        if key in registry {
          return Err(SaveBusy), steps;
        }
        GuestsAreNotStored(rules, Model(Free), key);
        var guest, guestSteps := AttachGuest(key, seed, now);
        return Ok(guest), guestSteps;
      }
      if !touched {
        return Err(AccountFailed), steps;
      }
      r, steps := AttachKeyed(key, answer, seed, now);
    }

    // Session.Advance, its closure run on the session's actor unless the loop has ended.
    method Tick(sid: nat, now: int) returns (snapshot: Option<S>)
      requires Valid() && Enabled(Model(Free), Step<C>.Tick(sid, now))
      modifies actors[sessions[sid].aid]
      ensures Valid() && Model(Free) == Apply(rules, old(Model(Free)), Step<C>.Tick(sid, now))
      ensures snapshot == old(Shown(rules, Model(Free), Step<C>.Tick(sid, now)))
    {
      hide Actors, Sessions, Known, RunTick, SessionHandle.Valid;
      var a := actors[sessions[sid].aid];
      snapshot := None;
      if !a.flushed {
        OwnerIsKnown(sessions[sid].aid);
        snapshot := a.Tick(sessions[sid], now);
        SameOwnersAreKnown();
      }
    }

    // Session.intent, likewise.
    method Intent(sid: nat, now: int, command: C) returns (snapshot: Option<S>, accepted: bool)
      requires Valid() && Enabled(Model(Free), Step<C>.Intent(sid, now, command))
      modifies actors[sessions[sid].aid]
      ensures Valid() && Model(Free) == Apply(rules, old(Model(Free)), Step<C>.Intent(sid, now, command))
      ensures snapshot == old(Shown(rules, Model(Free), Step<C>.Intent(sid, now, command)))
      ensures accepted ==> snapshot.Some?
    {
      hide Actors, Sessions, Known, RunIntent, SessionHandle.Valid;
      var a := actors[sessions[sid].aid];
      snapshot, accepted := None, false;
      if !a.flushed {
        OwnerIsKnown(sessions[sid].aid);
        snapshot, accepted := a.Intent(sessions[sid], now, command);
        SameOwnersAreKnown();
      }
    }

    // The loop's ticker.
    method Autosave(aid: nat, saved: bool)
      requires Valid() && aid < |actors| && !actors[aid].flushed
      modifies actors[aid], table
      ensures Valid() && Model(Free) == Apply(rules, old(Model(Free)), Step<C>.Autosave(aid, saved))
    {
      hide Actors, Sessions, Known, PersistActor, PersistStore, SessionHandle.Valid;
      actors[aid].Persist(table, saved);
      SameOwnersAreKnown();
    }

    // The loop's last turn on the actor.
    method LastTurn(aid: nat)
      requires Valid() && aid < |actors| && actors[aid].stop && !actors[aid].flushed
      modifies actors[aid], table
      ensures Valid() && table.rows == PersistStore(rules, old(actors[aid].Model()), old(table.rows), true)
      ensures Actors(actors) == old(Actors(actors))[aid :=
                PersistActor(old(actors[aid].Model()), old(table.rows), true).(flushed := true, done := true)]
    {
      hide Actors, Sessions, Known, PersistActor, PersistStore;
      ghost var owner := actors[aid].session;
      actors[aid].FlushOut(table, true);
      actors[aid].done := true;
      SameOwnersAreKnown();
    }

    method Unregister(aid: nat, cause: Cause, ghost lock: Lock)
      requires Valid() && aid < |actors|
      modifies this`registry, this`leaving, this`sweeps
      ensures Valid() && Model(Free) == Lifecycle.Unregister(old(Model(lock)), aid, cause)
      ensures leaving == if cause.ByDetach? then old(leaving) + {cause.sid} else old(leaving)
      ensures |sweeps| == |old(sweeps)| && forall i :: 0 <= i < |sweeps| ==>
                sweeps[i] == if cause == BySweep(i) then old(sweeps)[i].(current := None) else old(sweeps)[i]
    {
      hide Actors, Sessions, Valid, Lifecycle.Unregister;
      UnregisterIs(Model(lock), aid, cause);
      var key := actors[aid].key;
      if key in registry && registry[key] == aid {
        registry := registry - {key};
      }
      match cause
      case ByDetach(sid) => leaving := leaving + {sid};
      case BySweep(i) =>
        if i < |sweeps| {
          sweeps := sweeps[i := sweeps[i].(current := None)];
        }
    }

    method CloseStopOf(aid: nat)
      requires Valid() && aid < |actors|
      modifies actors[aid]
      ensures Valid() && actors[aid].stop && actors[aid].flushed == old(actors[aid].flushed)
      ensures Actors(actors) == old(Actors(actors))[aid := old(actors[aid].Model()).(stop := true)]
    {
      hide Actors, SessionHandle.Valid;
      actors[aid].stop := true;
    }

    // close(a.stop), and the wait for the loop's final flush.
    method CloseAndWait(aid: nat, cause: Cause) returns (ghost steps: seq<Step<C>>)
      requires Valid() && aid < |actors| && !actors[aid].done && !actors[aid].flushed
      modifies actors[aid], table
      ensures Valid() && actors[aid].done
      ensures Reached(rules, old(Model(Stopping(aid, cause))), steps, Model(Draining(aid, cause)))
    {
      hide Actors, Sessions, Valid, PersistActor, PersistStore, Reached;
      ghost var start := Model(Stopping(aid, cause));
      CloseStopOf(aid);
      ghost var stopped := start.actors[aid].(stop := true);
      LastTurn(aid);
      steps := [CloseStop, FinalFlush(aid), LoopExit(aid)];
      LastTurnIsARun(rules, start, aid, cause);
      assert Actors(actors) == start.actors[aid := PersistActor(stopped, start.store, true).(flushed := true, done := true)];
    }

    // stopActorLocked: close stop unless the loop is gone, wait for its final flush, and
    // take it out of the registry.
    method StopActor(aid: nat, cause: Cause) returns (ghost steps: seq<Step<C>>)
      requires Valid() && aid < |actors| && (actors[aid].done || !actors[aid].flushed)
      modifies this`registry, this`leaving, this`sweeps, actors[aid], table
      ensures Valid() && Reached(rules, old(Model(Stopping(aid, cause))), steps, Model(Free))
      ensures leaving == if cause.ByDetach? then old(leaving) + {cause.sid} else old(leaving)
      ensures |sweeps| == |old(sweeps)| && forall i :: 0 <= i < |sweeps| ==>
                sweeps[i] == if cause == BySweep(i) then old(sweeps)[i].(current := None) else old(sweeps)[i]
    {
      hide Lifecycle.Unregister, Actors, Sessions, Valid;
      ghost var start := Model(Stopping(aid, cause));
      if actors[aid].done {
        First(rules, start, CloseStop);
        steps := [CloseStop];
        Unregister(aid, cause, Stopping(aid, cause));
      } else {
        steps := CloseAndWait(aid, cause);
        OneMore(rules, start, steps, Model(Draining(aid, cause)), Drained);
        steps := steps + [Drained];
        Unregister(aid, cause, Draining(aid, cause));
      }
    }

    // detach's closure on a running actor: idle says that the save was this session's to give up.
    method LetGo(aid: nat, sid: nat, saved: bool) returns (idle: bool)
      requires Valid() && sid < |sessions| && aid < |actors|
      modifies actors[aid], table
      ensures Valid() && idle == (old(actors[aid].Model()).owner == Some(sid)) && actors[aid].flushed == old(actors[aid].flushed)
      ensures var a := old(actors[aid].Model());
        var left := if idle then a.(owner := None) else a;
        && Actors(actors) == old(Actors(actors))[aid := PersistActor(left, old(table.rows), saved)]
        && table.rows == PersistStore(rules, left, old(table.rows), saved)
    {
      hide Actors, Known, PersistActor, PersistStore, SessionHandle.Valid;
      OwnerIsKnown(aid);
      idle := actors[aid].Release(sessions[sid], table, saved);
      SameOwnersAreKnown();
    }

    method LeaveSave(sid: nat, saved: bool) returns (idle: bool)
      requires Valid() && sid < |sessions| && sessions[sid].aid < |actors|
      modifies this`leaving, actors[sessions[sid].aid], table
      ensures Valid() && (idle ==> !actors[sessions[sid].aid].flushed) && (!idle ==> sid in leaving)
      ensures Model(if idle then Stopping(sessions[sid].aid, ByDetach(sid)) else Free)
           == DoRelease(rules, old(Model(Releasing(sid))), sid, saved)
    {
      hide Actors, Sessions, Valid, PersistActor, PersistStore, DoRelease;
      ReleaseIs(rules, Model(Releasing(sid)), sid, saved);
      var aid := sessions[sid].aid;
      idle := false;
      // A loop that has ended does not run the closure.
      if !actors[aid].flushed {
        idle := LetGo(aid, sid, saved);
      }
      if !idle {
        leaving := leaving + {sid};
      }
    }

    // deliverKick with no reason, after Detach.
    method Close(sid: nat)
      requires Valid() && sid < |sessions|
      modifies sessions[sid]
      ensures Valid() && sessions[sid].closed
      ensures Sessions(sessions) == old(Sessions(sessions))[sid := DeliverKick(old(sessions[sid].Model()), None)]
    {
      hide Sessions;
      sessions[sid].DeliverKick(None);
    }

    // detach: the closure on the actor and, if the save was this session's, the stop.
    method Part(sid: nat, saved: bool) returns (ghost steps: seq<Step<C>>)
      requires Valid() && Inv(rules, Model(Free)) && sid < |sessions|
      modifies this`registry, this`leaving, this`sweeps, actors, table
      ensures Valid() && Reached(rules, old(Model(Free)), steps, Model(Free)) && sid in leaving
    {
      hide Actors, Sessions, Valid, DoRelease, Inv, Reached;
      ghost var start := Model(Free);
      SessionsHaveActors(rules, start, sid);
      First(rules, start, DetachBegin(sid));
      OneMore(rules, start, [DetachBegin(sid)], Model(Releasing(sid)), Release(saved));
      steps := [DetachBegin(sid)] + [Release(saved)];
      var aid := sessions[sid].aid;
      var idle := LeaveSave(sid, saved);
      if idle {
        ghost var stopping := Model(Stopping(aid, ByDetach(sid)));
        ghost var more := StopActor(aid, ByDetach(sid));
        Then(rules, start, steps, stopping, more, Model(Free));
        steps := steps + more;
      }
    }

    // detach, and the session's own close after it.
    method Detach(sid: nat, saved: bool) returns (ghost steps: seq<Step<C>>)
      requires Lawful(rules) && Valid() && Inv(rules, Model(Free)) && sid < |sessions|
      modifies this`registry, this`leaving, this`sweeps, actors, sessions, table
      ensures Valid() && Reached(rules, old(Model(Free)), steps, Model(Free)) && Inv(rules, Model(Free))
      ensures sessions[sid].closed
    {
      hide Actors, Sessions, Valid, Inv, DeliverKick, Reached, Lawful;
      ghost var start := Model(Free);
      steps := Part(sid, saved);
      OneMore(rules, start, steps, Model(Free), FinishDetach(sid));
      steps := steps + [FinishDetach(sid)];
      leaving := leaving - {sid};
      Close(sid);
      ReachedKeepsInv(rules, start, steps, Model(Free));
    }

    // Shutdown's closure on a running actor.
    method SignOffOwner(aid: nat)
      requires Valid() && aid < |actors|
      modifies actors[aid], sessions
      ensures Valid() && actors[aid].flushed == old(actors[aid].flushed) && actors[aid].done == old(actors[aid].done)
      ensures var w, reason := old(Model(Free)), if actors[aid].key.Guest? then GuestEnding else ServerClosing;
        Model(Free) == if w.actors[aid].flushed then w else SignOff(w, aid, reason)
    {
      hide Actors, Sessions, Known, DeliverKick;
      if actors[aid].flushed {
        return;
      }
      OwnerIsKnown(aid);
      actors[aid].SignOff();
      SameOwnersAreKnown();
    }

    // ... as one actor of the flush: it is the one to stop next.
    method Tell(i: nat, aid: nat)
      requires Valid() && aid < |actors| && i < |sweeps|
      modifies this`sweeps, actors[aid], sessions
      ensures Valid() && Model(Free) == DoSweepKick(old(Model(Free)), i, aid)
      ensures actors[aid].flushed == old(actors[aid].flushed) && actors[aid].done == old(actors[aid].done)
      ensures sweeps == old(sweeps)[i := Sweep(old(sweeps)[i].rest - {aid}, Some(aid))]
    {
      hide Actors, Sessions, Known, SignOff;
      SignOffOwner(aid);
      sweeps := sweeps[i := Sweep(sweeps[i].rest - {aid}, Some(aid))];
    }

    // One actor of the flush: tell its session why, then stop it under the lock.
    method Flush(i: nat, aid: nat) returns (ghost steps: seq<Step<C>>)
      requires Lawful(rules) && Valid() && Inv(rules, Model(Free))
      requires i < |sweeps| && sweeps[i].current.None? && aid in sweeps[i].rest
      modifies this`registry, this`leaving, this`sweeps, actors, sessions, table
      ensures Valid() && Reached(rules, old(Model(Free)), steps, Model(Free)) && Inv(rules, Model(Free))
      ensures |sweeps| == |old(sweeps)| && sweeps[i] == Sweep(old(sweeps)[i].rest - {aid}, None)
    {
      hide Actors, Sessions, Valid, Inv, Reached, Lawful, DoSweepKick;
      ghost var start := Model(Free);
      SweptActorsAreThere(rules, start, i, aid);
      First(rules, start, SweepKick(i, aid));
      Tell(i, aid);
      OneMore(rules, start, [SweepKick(i, aid)], Model(Free), SweepLock(i));
      steps := [SweepKick(i, aid)] + [SweepLock(i)];
      ghost var stopping := Model(Stopping(aid, BySweep(i)));
      ghost var more := StopActor(aid, BySweep(i));
      Then(rules, start, steps, stopping, more, Model(Free));
      steps := steps + more;
      ReachedKeepsInv(rules, start, steps, Model(Free));
    }

    // Shutdown run to its end: no save is open after it, and none can be found.
    method Shutdown() returns (ghost steps: seq<Step<C>>)
      requires Lawful(rules) && Valid() && Inv(rules, Model(Free)) && !closing
      modifies this`closing, this`registry, this`leaving, this`sweeps, actors, sessions, table
      ensures Valid() && Reached(rules, old(Model(Free)), steps, Model(Free)) && Inv(rules, Model(Free))
      ensures closing && registry == map[]
    {
      hide Actors, Sessions, Valid, Inv, Reached, Lawful;
      ghost var start := Model(Free);
      First(rules, start, ShutdownBegin);
      steps := [ShutdownBegin];
      closing := true;
      var rest, i := registry.Values, |sweeps|;
      sweeps := sweeps + [Sweep(rest, None)];
      ReachedKeepsInv(rules, start, steps, Model(Free));
      while rest != {}
        invariant i < |sweeps| && sweeps[i] == Sweep(rest, None) && closing
        invariant Valid() && Reached(rules, start, steps, Model(Free)) && Inv(rules, Model(Free))
        decreases |rest|
      {
        var aid :| aid in rest;
        ghost var before := Model(Free);
        ghost var more := Flush(i, aid);
        Then(rules, start, steps, before, more, Model(Free));
        steps := steps + more;
        rest := rest - {aid};
      }
      AFinishedSweepLeavesNothing(rules, Model(Free), i);
    }
  }

  lemma ReachedKeepsInv<S(!new), C(!new), B>(g: Rules<S, C, B>, w0: World<S, B>, steps: seq<Step<C>>, w: World<S, B>)
    requires Lawful(g) && Inv(g, w0) && Reached(g, w0, steps, w)
    ensures Inv(g, w)
  {
    hide Lawful, Inv;
    RunKeepsInv(g, w0, steps);
  }

  lemma Nothing<S(!new), C(!new), B>(g: Rules<S, C, B>, w: World<S, B>)
    ensures Reached(g, w, [], w)
  {
  }

  lemma GuestsAreNotStored<S(!new), C(!new), B>(g: Rules<S, C, B>, w: World<S, B>, key: Key)
    requires Inv(g, w) && key.Guest? && key !in w.registry
    ensures StateOf(g, w, key) == None
  {
  }

  lemma BornDecodes<S(!new), C(!new), B>(g: Rules<S, C, B>, seed: nat, now: int)
    requires Lawful(g)
    ensures g.decode(g.encode(g.newSave(seed, now))) == Some(g.newSave(seed, now))
  {
  }

  lemma LockIsNoState<S(!new), C(!new), B>(g: Rules<S, C, B>, w: World<S, B>, lock: Lock, key: Key)
    ensures StateOf(g, w.(lock := lock), key) == StateOf(g, w, key)
    ensures StateOf(g, w, key) == if key in w.registry && w.registry[key] < |w.actors|
                                  then Some(w.actors[w.registry[key]].state)
                                  else if key in w.store then g.decode(w.store[key].payload) else None
  {
  }

  lemma LoadedState<S(!new), C(!new), B>(g: Rules<S, C, B>, w: World<S, B>, key: Key, seed: nat, now: int)
    requires Lawful(g) && w.lock == Loading(key, now) && key !in w.registry
    ensures var (w', was) := (DoLoad(g, w, key, seed, now), StateOf(g, w, key));
      && (w'.lock.Joining? ==> StateOf(g, w', key) == if was.Some? then was else Some(g.newSave(seed, now)))
      && (w'.lock.Free? ==> w' == w.(lock := Free))
  {
  }

  lemma RegisteredIsThere<S(!new), C(!new), B>(g: Rules<S, C, B>, w: World<S, B>, key: Key)
    requires Inv(g, w) && key in w.registry
    ensures w.registry[key] < |w.actors| && w.actors[w.registry[key]].key == key
  {
  }

  // The joined actor is running, and unless it refuses the save is its state, caught up
  // but for a guest's.
  lemma JoinedState<S(!new), C(!new), B>(g: Rules<S, C, B>, w: World<S, B>, key: Key, aid: nat, now: int)
    requires Inv(g, w) && w.lock == Joining(key, aid, now)
    ensures aid < |w.actors| && !w.actors[aid].flushed && w.actors[aid].key == key
    ensures StateOf(g, w, key) == Some(w.actors[aid].state)
    ensures var w' := DoJoin(g, w, key, aid, now);
      if Refused(w.actors[aid], w.policy) then w' == w.(lock := Free)
      else StateOf(g, w', key) == Some(if key.Guest? then w.actors[aid].state else g.advance(w.actors[aid].state, now))
  {
    JoiningAnActorNeverFails(g, w);
  }

  lemma SweptActorsAreThere<S(!new), C(!new), B>(g: Rules<S, C, B>, w: World<S, B>, i: nat, aid: nat)
    requires Inv(g, w) && w.lock.Free? && i < |w.sweeps| && aid in w.sweeps[i].rest
    ensures aid < |w.actors| && (w.actors[aid].flushed ==> w.actors[aid].done)
    ensures w.actors[aid].owner.Some? ==> w.actors[aid].owner.value < |w.sessions|
  {
  }

  lemma SessionsHaveActors<S(!new), C(!new), B>(g: Rules<S, C, B>, w: World<S, B>, sid: nat)
    requires Inv(g, w) && w.lock.Free? && sid < |w.sessions|
    ensures var aid := w.sessions[sid].aid;
      aid < |w.actors| && (w.actors[aid].flushed ==> w.actors[aid].done)
  {
  }

  lemma UnregisterIs<S(!new), B>(w: World<S, B>, aid: nat, cause: Cause)
    requires aid < |w.actors|
    ensures var key := w.actors[aid].key;
      Lifecycle.Unregister(w, aid, cause)
      == w.(registry := if key in w.registry && w.registry[key] == aid then w.registry - {key} else w.registry,
            lock := Free,
            leaving := if cause.ByDetach? then w.leaving + {cause.sid} else w.leaving,
            sweeps := if cause.BySweep? && cause.sweep < |w.sweeps|
                      then w.sweeps[cause.sweep := w.sweeps[cause.sweep].(current := None)] else w.sweeps)
  {
  }

  lemma ReleaseIs<S(!new), C(!new), B>(g: Rules<S, C, B>, w: World<S, B>, sid: nat, saved: bool)
    requires sid < |w.sessions| && w.sessions[sid].aid < |w.actors|
    ensures var aid := w.sessions[sid].aid;
      var a, idle := w.actors[aid], !w.actors[aid].flushed && w.actors[aid].owner == Some(sid);
      var left := if idle then a.(owner := None) else a;
      DoRelease(g, w, sid, saved)
      == w.(actors := if a.flushed then w.actors else w.actors[aid := PersistActor(left, w.store, saved)],
            store := if a.flushed then w.store else PersistStore(g, left, w.store, saved),
            lock := if idle then Stopping(aid, ByDetach(sid)) else Free,
            leaving := if idle then w.leaving else w.leaving + {sid})
  {
    hide PersistActor, PersistStore;
  }

  // The three steps of a loop that ends, from the world that closes its stop channel.
  lemma LastTurnIsARun<S(!new), C(!new), B>(g: Rules<S, C, B>, w: World<S, B>, aid: nat, cause: Cause)
    requires w.lock == Stopping(aid, cause) && aid < |w.actors| && !w.actors[aid].done && !w.actors[aid].flushed
    ensures var stopped := w.actors[aid].(stop := true);
      var steps: seq<Step<C>> := [CloseStop, FinalFlush(aid), LoopExit(aid)];
      Reached(g, w, steps,
        w.(actors := w.actors[aid := PersistActor(stopped, w.store, true).(flushed := true, done := true)],
           store := PersistStore(g, stopped, w.store, true), lock := Draining(aid, cause)))
  {
    hide PersistStore;
    OneMore(g, w, [], w, CloseStop);
    var w1 := Apply<S, C, B>(g, w, CloseStop);
    OneMore(g, w, [] + [CloseStop], w1, FinalFlush(aid));
    var w2 := Apply<S, C, B>(g, w1, FinalFlush(aid));
    OneMore(g, w, [] + [CloseStop] + [FinalFlush(aid)], w2, LoopExit(aid));
    var steps: seq<Step<C>> := [CloseStop, FinalFlush(aid), LoopExit(aid)];
    assert [] + [CloseStop] + [FinalFlush(aid)] + [LoopExit(aid)] == steps;
  }

  lemma JoinRefused<S(!new), C(!new), B>(g: Rules<S, C, B>, w: World<S, B>, key: Key, aid: nat, now: int)
    requires aid < |w.actors|
    ensures w.actors[aid].flushed ==> DoJoin(g, w, key, aid, now) == w.(registry := w.registry - {key}, lock := Free)
    ensures !w.actors[aid].flushed && Refused(w.actors[aid], w.policy) ==> DoJoin(g, w, key, aid, now) == w.(lock := Free)
  {
  }

  // The actor joined and its old owner told: that is the machine's Join.
  lemma JoinAdmitted<S(!new), C(!new), B>(
    g: Rules<S, C, B>, w: World<S, B>, w': World<S, B>, key: Key, aid: nat, now: int)
    requires aid < |w.actors| && !w.actors[aid].flushed && !Refused(w.actors[aid], w.policy)
    requires w.actors[aid].owner.Some? ==> w.actors[aid].owner.value < |w.sessions|
    requires w' == w.(actors := w'.actors, sessions := w'.sessions, lock := Free)
    requires w'.actors == w.actors[aid := RunJoin(g, w.actors[aid], |w.sessions|, now)]
    requires var owner := w.actors[aid].owner;
      w'.sessions == (if owner.None? then w.sessions
                      else w.sessions[owner.value := DeliverKick(w.sessions[owner.value], Some(TakenOver))])
                     + [Session(aid, [], false)]
    ensures w' == DoJoin(g, w, key, aid, now) && Owns(w', |w.sessions|)
  {
  }
}
