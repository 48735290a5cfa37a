// Every interleaving of the save lifecycle refines one atomic map from save key
// to state. The proof is one invariant, kept by each step, beside the step's effect.
module LifecycleSafety {
  import opened Common
  import opened Lifecycle

  // ---- The invariant ----

  ghost predicate RegistryOk<S, B>(w: World<S, B>) {
    && (forall k :: k in w.registry ==> w.registry[k] < |w.actors| && w.actors[w.registry[k]].key == k)
    // A loop that has not ended is the registered one for its key.
    && (forall a :: 0 <= a < |w.actors| && !w.actors[a].done ==>
          w.actors[a].key in w.registry && w.registry[w.actors[a].key] == a)
  }

  ghost predicate PhasesOk<S, B>(w: World<S, B>) {
    forall a :: 0 <= a < |w.actors| ==>
      && (w.actors[a].done ==> w.actors[a].flushed)
      && (w.actors[a].flushed ==> w.actors[a].stop)
      && (w.actors[a].stop ==> w.actors[a].owner == None)
      // Between closing stop and the loop's end, the mutex waits for exactly this actor.
      && (w.actors[a].stop && !w.actors[a].done ==> w.lock.Draining? && w.lock.aid == a)
      && (w.actors[a].done && w.actors[a].key in w.registry && w.registry[w.actors[a].key] == a ==>
            w.lock.Draining? && w.lock.aid == a)
  }

  // A clean open save decodes from its row to its state; a flushed one is clean.
  ghost predicate RowsOk<S, C, B>(g: Rules<S, C, B>, w: World<S, B>) {
    && (forall k :: k in w.store ==> k.Keyed?)
    && (forall k :: k in w.registry && k.Keyed? && w.registry[k] < |w.actors| ==>
          && k in w.store
          && (!w.actors[w.registry[k]].dirty ==> g.decode(w.store[k].payload) == Some(w.actors[w.registry[k]].state))
          && (w.actors[w.registry[k]].flushed ==> !w.actors[w.registry[k]].dirty))
  }

  // An owner is a session of this actor that has been told nothing yet.
  ghost predicate OwnersOk<S, B>(w: World<S, B>) {
    && (forall a :: 0 <= a < |w.actors| && w.actors[a].owner.Some? ==>
          && w.actors[a].owner.value < |w.sessions|
          && w.sessions[w.actors[a].owner.value] == Session(a, [], false)
          && w.actors[a].owner.value !in w.leaving)
    && (forall s :: 0 <= s < |w.sessions| ==>
          && w.sessions[s].aid < |w.actors|
          && |w.sessions[s].notices| <= 1
          && (w.sessions[s].notices != [] ==> w.sessions[s].closed))
    && (forall s :: s in w.leaving ==> s < |w.sessions|)
  }

  ghost predicate LockOk<S, B>(w: World<S, B>) {
    match w.lock
    case Free => true
    case Loading(k, _) => k.Keyed? && k !in w.registry && !w.closing
    case Joining(k, a, _) =>
      !w.closing && a < |w.actors| && k in w.registry && w.registry[k] == a && !w.actors[a].stop &&
      (k.Guest? ==> w.actors[a].owner == None)
    case Releasing(s) => s < |w.sessions|
    case Stopping(a, cause) => a < |w.actors| && w.actors[a].owner == None && CauseOk(w, a, cause)
    case Draining(a, cause) =>
      a < |w.actors| && w.actors[a].stop && CauseOk(w, a, cause) &&
      w.actors[a].key in w.registry && w.registry[w.actors[a].key] == a
  }

  ghost predicate CauseOk<S, B>(w: World<S, B>, a: nat, cause: Cause) {
    match cause
    case ByDetach(s) => s < |w.sessions| && w.sessions[s].aid == a
    case BySweep(i) => i < |w.sweeps| && w.sweeps[i].current == Some(a)
  }

  // After closing, a sweep still has every registered actor ahead of it.
  ghost predicate SweepsOk<S, B>(w: World<S, B>) {
    && (w.sweeps != [] ==> w.closing)
    && (forall i, k :: 0 <= i < |w.sweeps| && k in w.registry ==>
          w.registry[k] in w.sweeps[i].rest || w.sweeps[i].current == Some(w.registry[k]))
    && (forall i :: 0 <= i < |w.sweeps| && w.sweeps[i].current.Some? ==>
          w.sweeps[i].current.value < |w.actors| && w.actors[w.sweeps[i].current.value].owner == None)
    && (forall i, a :: 0 <= i < |w.sweeps| && a in w.sweeps[i].rest ==> a < |w.actors|)
  }

  ghost predicate Inv<S, C, B>(g: Rules<S, C, B>, w: World<S, B>) {
    RegistryOk(w) && PhasesOk(w) && RowsOk(g, w) && OwnersOk(w) && LockOk(w) && SweepsOk(w)
  }

  lemma InitEstablishes<S(!new), C(!new), B>(g: Rules<S, C, B>, w: World<S, B>)
    requires Init(w)
    ensures Inv(g, w)
  {
  }

  // ---- The pieces steps are made of ----

  ghost predicate Structure<S, B>(w: World<S, B>) {
    RegistryOk(w) && PhasesOk(w) && OwnersOk(w) && LockOk(w) && SweepsOk(w)
  }

  ghost predicate Kept<S, C, B>(g: Rules<S, C, B>, w: World<S, B>, w': World<S, B>, e: Effect<S, C>) {
    Inv(g, w') && Atomic(g, w, w', e)
  }

  lemma SignOffRegistry<S(!new), C(!new), B>(g: Rules<S, C, B>, w: World<S, B>, aid: nat, reason: Reason)
    requires Structure(w) && aid < |w.actors|
    ensures RegistryOk(SignOff(w, aid, reason)) && PhasesOk(SignOff(w, aid, reason))
  {
  }

  lemma SignOffOwners<S(!new), C(!new), B>(g: Rules<S, C, B>, w: World<S, B>, aid: nat, reason: Reason)
    requires Structure(w) && aid < |w.actors|
    ensures OwnersOk(SignOff(w, aid, reason)) && LockOk(SignOff(w, aid, reason)) && SweepsOk(SignOff(w, aid, reason))
  {
    hide RegistryOk;
  }

  lemma SignOffKeeps<S(!new), C(!new), B>(g: Rules<S, C, B>, w: World<S, B>, aid: nat, reason: Reason)
    requires Inv(g, w) && aid < |w.actors|
    ensures Kept(g, w, SignOff(w, aid, reason), Stutter)
  {
    hide OwnersOk, LockOk, SweepsOk;
    SignOffRegistry(g, w, aid, reason);
    SignOffOwners(g, w, aid, reason);
  }

  lemma LeaveRegistry<S(!new), C(!new), B>(g: Rules<S, C, B>, w: World<S, B>, sid: nat, aid: nat)
    requires Structure(w) && w.lock.Releasing? && sid < |w.sessions| && w.sessions[sid].aid == aid && !w.actors[aid].flushed
    ensures RegistryOk(Leave(w, sid, aid)) && PhasesOk(Leave(w, sid, aid))
  {
  }

  lemma LeaveOwners<S(!new), C(!new), B>(g: Rules<S, C, B>, w: World<S, B>, sid: nat, aid: nat)
    requires Structure(w) && w.lock.Releasing? && sid < |w.sessions| && w.sessions[sid].aid == aid && !w.actors[aid].flushed
    ensures OwnersOk(Leave(w, sid, aid)) && LockOk(Leave(w, sid, aid)) && SweepsOk(Leave(w, sid, aid))
  {
    hide RegistryOk;
  }

  lemma LeaveKeeps<S(!new), C(!new), B>(g: Rules<S, C, B>, w: World<S, B>, sid: nat, aid: nat)
    requires Inv(g, w) && w.lock.Releasing? && sid < |w.sessions| && w.sessions[sid].aid == aid && !w.actors[aid].flushed
    ensures Kept(g, w, Leave(w, sid, aid), Stutter)
  {
    hide OwnersOk, LockOk, SweepsOk;
    LeaveRegistry(g, w, sid, aid);
    LeaveOwners(g, w, sid, aid);
  }

  lemma SavedRegistry<S(!new), C(!new), B>(g: Rules<S, C, B>, w: World<S, B>, aid: nat, saved: bool)
    requires Structure(w) && aid < |w.actors| && !w.actors[aid].flushed
    ensures RegistryOk(Saved(g, w, aid, saved)) && PhasesOk(Saved(g, w, aid, saved))
  {
  }

  lemma SavedOwners<S(!new), C(!new), B>(g: Rules<S, C, B>, w: World<S, B>, aid: nat, saved: bool)
    requires Structure(w) && aid < |w.actors| && !w.actors[aid].flushed
    ensures OwnersOk(Saved(g, w, aid, saved)) && LockOk(Saved(g, w, aid, saved)) && SweepsOk(Saved(g, w, aid, saved))
  {
  }

  lemma SavedKeeps<S(!new), C(!new), B>(g: Rules<S, C, B>, w: World<S, B>, aid: nat, saved: bool)
    requires Lawful(g) && Inv(g, w) && aid < |w.actors| && !w.actors[aid].flushed
    ensures Kept(g, w, Saved(g, w, aid, saved), Stutter)
  {
    SavedRegistry(g, w, aid, saved);
    SavedOwners(g, w, aid, saved);
  }

  predicate CanPlay<S(==), B>(w: World<S, B>, aid: nat, a: Actor<S>) {
    && aid < |w.actors| && !w.actors[aid].flushed
    && a == w.actors[aid].(state := a.state, dirty := a.dirty)
    && (!a.dirty ==> !w.actors[aid].dirty && a.state == w.actors[aid].state)
  }

  lemma PlayRegistry<S(!new), C(!new), B>(g: Rules<S, C, B>, w: World<S, B>, aid: nat, a: Actor<S>)
    requires Structure(w) && CanPlay(w, aid, a)
    ensures RegistryOk(w.(actors := w.actors[aid := a])) && PhasesOk(w.(actors := w.actors[aid := a]))
  {
  }

  lemma PlayOwners<S(!new), C(!new), B>(g: Rules<S, C, B>, w: World<S, B>, aid: nat, a: Actor<S>)
    requires Structure(w) && CanPlay(w, aid, a)
    ensures OwnersOk(w.(actors := w.actors[aid := a])) && LockOk(w.(actors := w.actors[aid := a])) && SweepsOk(w.(actors := w.actors[aid := a]))
  {
  }

  lemma PlayKeeps<S(!new), C(!new), B>(g: Rules<S, C, B>, w: World<S, B>, aid: nat, a: Actor<S>)
    requires Inv(g, w) && CanPlay(w, aid, a)
    ensures var w' := w.(actors := w.actors[aid := a]);
      && Inv(g, w') && Unmoved(g, w, w', {a.key})
      && StateOf(g, w, a.key) == Some(w.actors[aid].state) && StateOf(g, w', a.key) == Some(a.state)
  {
    PlayRegistry(g, w, aid, a);
    PlayOwners(g, w, aid, a);
  }

  lemma AdmitRegistry<S(!new), C(!new), B>(g: Rules<S, C, B>, w: World<S, B>, aid: nat, now: int)
    requires Structure(w) && w.lock.Joining? && w.lock.aid == aid && w.actors[aid].owner == None
    ensures RegistryOk(Admit(g, w, aid, now)) && PhasesOk(Admit(g, w, aid, now))
  {
  }

  lemma AdmitOwners<S(!new), C(!new), B>(g: Rules<S, C, B>, w: World<S, B>, aid: nat, now: int)
    requires Structure(w) && w.lock.Joining? && w.lock.aid == aid && w.actors[aid].owner == None
    ensures OwnersOk(Admit(g, w, aid, now)) && LockOk(Admit(g, w, aid, now)) && SweepsOk(Admit(g, w, aid, now))
  {
  }

  lemma AdmitKeeps<S(!new), C(!new), B>(g: Rules<S, C, B>, w: World<S, B>, aid: nat, now: int)
    requires Lawful(g) && Inv(g, w) && w.lock.Joining? && w.lock.aid == aid && w.actors[aid].owner == None
    ensures Kept(g, w, Admit(g, w, aid, now), if w.actors[aid].key.Guest? then Stutter else Settle(w.actors[aid].key, now))
  {
    AdmitRegistry(g, w, aid, now);
    AdmitOwners(g, w, aid, now);
  }

  lemma SweepMarkRegistry<S(!new), C(!new), B>(g: Rules<S, C, B>, w: World<S, B>, i: nat, aid: nat)
    requires Structure(w) && i < |w.sweeps| && aid < |w.actors| && w.actors[aid].owner == None && w.sweeps[i].current == None
    ensures RegistryOk(SweepMark(w, i, aid)) && PhasesOk(SweepMark(w, i, aid))
  {
  }

  lemma SweepMarkOwners<S(!new), C(!new), B>(g: Rules<S, C, B>, w: World<S, B>, i: nat, aid: nat)
    requires Structure(w) && i < |w.sweeps| && aid < |w.actors| && w.actors[aid].owner == None && w.sweeps[i].current == None
    ensures OwnersOk(SweepMark(w, i, aid)) && LockOk(SweepMark(w, i, aid)) && SweepsOk(SweepMark(w, i, aid))
  {
  }

  lemma SweepMarkKeeps<S(!new), C(!new), B>(g: Rules<S, C, B>, w: World<S, B>, i: nat, aid: nat)
    requires Inv(g, w) && i < |w.sweeps| && aid < |w.actors| && w.actors[aid].owner == None && w.sweeps[i].current == None
    ensures Kept(g, w, SweepMark(w, i, aid), Stutter)
  {
    SweepMarkRegistry(g, w, i, aid);
    SweepMarkOwners(g, w, i, aid);
  }

  lemma AttachBeginRegistry<S(!new), C(!new), B>(g: Rules<S, C, B>, w: World<S, B>, key: Key, seed: nat, now: int)
    requires Structure(w) && w.lock.Free?
    ensures RegistryOk(DoAttachBegin(g, w, key, seed, now)) && PhasesOk(DoAttachBegin(g, w, key, seed, now))
  {
  }

  lemma AttachBeginOwners<S(!new), C(!new), B>(g: Rules<S, C, B>, w: World<S, B>, key: Key, seed: nat, now: int)
    requires Structure(w) && w.lock.Free?
    ensures OwnersOk(DoAttachBegin(g, w, key, seed, now)) && LockOk(DoAttachBegin(g, w, key, seed, now)) && SweepsOk(DoAttachBegin(g, w, key, seed, now))
  {
  }

  lemma AttachBeginKeeps<S(!new), C(!new), B>(g: Rules<S, C, B>, w: World<S, B>, key: Key, seed: nat, now: int)
    requires Inv(g, w) && w.lock.Free?
    ensures Kept(g, w, DoAttachBegin(g, w, key, seed, now), EffectOf(g, w, AttachBegin(key, seed, now)))
  {
    AttachBeginRegistry(g, w, key, seed, now);
    AttachBeginOwners(g, w, key, seed, now);
  }

  lemma LoadRegistry<S(!new), C(!new), B>(g: Rules<S, C, B>, w: World<S, B>, seed: nat)
    requires Structure(w) && w.lock.Loading?
    ensures RegistryOk(DoLoad(g, w, w.lock.key, seed, w.lock.now)) && PhasesOk(DoLoad(g, w, w.lock.key, seed, w.lock.now))
  {
  }

  lemma LoadOwners<S(!new), C(!new), B>(g: Rules<S, C, B>, w: World<S, B>, seed: nat)
    requires Structure(w) && w.lock.Loading?
    ensures OwnersOk(DoLoad(g, w, w.lock.key, seed, w.lock.now)) && LockOk(DoLoad(g, w, w.lock.key, seed, w.lock.now)) && SweepsOk(DoLoad(g, w, w.lock.key, seed, w.lock.now))
  {
  }

  lemma LoadEffect<S(!new), C(!new), B>(g: Rules<S, C, B>, w: World<S, B>, seed: nat)
    requires Lawful(g) && Inv(g, w) && w.lock.Loading?
    ensures Atomic(g, w, DoLoad(g, w, w.lock.key, seed, w.lock.now), EffectOf(g, w, Load(seed)))
  {
  }

  lemma LoadKeeps<S(!new), C(!new), B>(g: Rules<S, C, B>, w: World<S, B>, seed: nat)
    requires Lawful(g) && Inv(g, w) && w.lock.Loading?
    ensures Kept(g, w, DoLoad(g, w, w.lock.key, seed, w.lock.now), EffectOf(g, w, Load(seed)))
  {
    LoadRegistry(g, w, seed);
    LoadOwners(g, w, seed);
    LoadEffect(g, w, seed);
    assert RowsOk(g, DoLoad(g, w, w.lock.key, seed, w.lock.now));
  }

  lemma LoadFailsStructure<S(!new), C(!new), B>(g: Rules<S, C, B>, w: World<S, B>, seed: nat, inserted: bool)
    requires Structure(w) && w.lock.Loading?
    ensures Structure(DoLoadFails(g, w, w.lock.key, seed, w.lock.now, inserted))
  {
  }

  lemma LoadFailsKeeps<S(!new), C(!new), B>(g: Rules<S, C, B>, w: World<S, B>, seed: nat, inserted: bool)
    requires Lawful(g) && Inv(g, w) && w.lock.Loading?
    ensures Kept(g, w, DoLoadFails(g, w, w.lock.key, seed, w.lock.now, inserted), EffectOf(g, w, LoadFails(seed, inserted)))
  {
    LoadFailsStructure(g, w, seed, inserted);
  }

  lemma CloseStopRegistry<S(!new), C(!new), B>(g: Rules<S, C, B>, w: World<S, B>)
    requires Structure(w) && w.lock.Stopping?
    ensures RegistryOk(DoCloseStop(w, w.lock.aid, w.lock.cause)) && PhasesOk(DoCloseStop(w, w.lock.aid, w.lock.cause))
  {
  }

  lemma CloseStopOwners<S(!new), C(!new), B>(g: Rules<S, C, B>, w: World<S, B>)
    requires Structure(w) && w.lock.Stopping?
    ensures OwnersOk(DoCloseStop(w, w.lock.aid, w.lock.cause)) && LockOk(DoCloseStop(w, w.lock.aid, w.lock.cause))
  {
    hide SweepsOk;
  }

  lemma CloseStopSweeps<S(!new), C(!new), B>(g: Rules<S, C, B>, w: World<S, B>)
    requires Structure(w) && w.lock.Stopping?
    ensures SweepsOk(DoCloseStop(w, w.lock.aid, w.lock.cause))
  {
    hide OwnersOk, PhasesOk;
  }

  lemma CloseStopKeeps<S(!new), C(!new), B>(g: Rules<S, C, B>, w: World<S, B>)
    requires Inv(g, w) && w.lock.Stopping?
    ensures Kept(g, w, DoCloseStop(w, w.lock.aid, w.lock.cause), Stutter)
  {
    hide OwnersOk, LockOk, SweepsOk;
    CloseStopRegistry(g, w);
    CloseStopOwners(g, w);
    CloseStopSweeps(g, w);
  }

  lemma DrainedRegistry<S(!new), C(!new), B>(g: Rules<S, C, B>, w: World<S, B>)
    requires Structure(w) && w.lock.Draining? && w.actors[w.lock.aid].done
    ensures RegistryOk(Unregister(w, w.lock.aid, w.lock.cause)) && PhasesOk(Unregister(w, w.lock.aid, w.lock.cause))
  {
  }

  lemma DrainedOwners<S(!new), C(!new), B>(g: Rules<S, C, B>, w: World<S, B>)
    requires Structure(w) && w.lock.Draining? && w.actors[w.lock.aid].done
    ensures OwnersOk(Unregister(w, w.lock.aid, w.lock.cause)) && LockOk(Unregister(w, w.lock.aid, w.lock.cause))
  {
    hide SweepsOk;
  }

  lemma DrainedSweeps<S(!new), C(!new), B>(g: Rules<S, C, B>, w: World<S, B>)
    requires Structure(w) && w.lock.Draining? && w.actors[w.lock.aid].done
    ensures SweepsOk(Unregister(w, w.lock.aid, w.lock.cause))
  {
    hide OwnersOk, PhasesOk;
  }

  lemma DrainedKeeps<S(!new), C(!new), B>(g: Rules<S, C, B>, w: World<S, B>)
    requires Inv(g, w) && w.lock.Draining? && w.actors[w.lock.aid].done
    ensures Kept(g, w, Unregister(w, w.lock.aid, w.lock.cause), EffectOf(g, w, Drained))
  {
    hide OwnersOk, SweepsOk;
    DrainedRegistry(g, w);
    DrainedOwners(g, w);
    DrainedSweeps(g, w);
  }

  // An effect after a silent change is the same effect before it.
  lemma AfterSilence<S(!new), C(!new), B>(g: Rules<S, C, B>, w: World<S, B>, v: World<S, B>, w': World<S, B>, e: Effect<S, C>)
    requires Unmoved(g, w, v, {}) && Atomic(g, v, w', e)
    ensures Atomic(g, w, w', e)
  {
  }

  lemma JoinKeeps<S(!new), C(!new), B>(g: Rules<S, C, B>, w: World<S, B>)
    requires Lawful(g) && Inv(g, w) && w.lock.Joining?
    ensures Kept(g, w, DoJoin(g, w, w.lock.key, w.lock.aid, w.lock.now), EffectOf(g, w, Join))
  {
    var aid, now := w.lock.aid, w.lock.now;
    if Refused(w.actors[aid], w.policy) {
      UnlockKeeps(g, w);
    } else {
      var v := SignOff(w, aid, TakenOver);
      SignOffKeeps(g, w, aid, TakenOver);
      AdmitKeeps(g, v, aid, now);
      AfterSilence(g, w, v, Admit(g, v, aid, now), EffectOf(g, w, Join));
    }
  }

  lemma UnlockKeeps<S(!new), C(!new), B>(g: Rules<S, C, B>, w: World<S, B>)
    requires Inv(g, w) && w.lock.Joining?
    ensures Kept(g, w, w.(lock := Free), Stutter)
  {
  }

  lemma ReleaseKeeps<S(!new), C(!new), B>(g: Rules<S, C, B>, w: World<S, B>, saved: bool)
    requires Lawful(g) && Inv(g, w) && Enabled<S, C, B>(w, Release(saved))
    ensures Kept(g, w, DoRelease(g, w, w.lock.sid, saved), Stutter)
  {
    var sid := w.lock.sid;
    var aid := w.sessions[sid].aid;
    if w.actors[aid].flushed {
      DepartKeeps(g, w, sid);
    } else {
      var v := Leave(w, sid, aid);
      LeaveKeeps(g, w, sid, aid);
      SavedKeeps(g, v, aid, saved);
      AfterSilence(g, w, v, Saved(g, v, aid, saved), Stutter);
    }
  }

  lemma DepartKeeps<S(!new), C(!new), B>(g: Rules<S, C, B>, w: World<S, B>, sid: nat)
    requires Inv(g, w) && w.lock == Releasing(sid) && sid < |w.sessions| && w.actors[w.sessions[sid].aid].flushed
    ensures Kept(g, w, w.(lock := Free, leaving := w.leaving + {sid}), Stutter)
  {
  }

  lemma SweepKickKeeps<S(!new), C(!new), B>(g: Rules<S, C, B>, w: World<S, B>, i: nat, aid: nat)
    requires Inv(g, w) && Enabled<S, C, B>(w, SweepKick(i, aid))
    ensures Kept(g, w, DoSweepKick(w, i, aid), Stutter)
  {
    var reason := if w.actors[aid].key.Guest? then GuestEnding else ServerClosing;
    SignOffKeeps(g, w, aid, reason);
    var v := if w.actors[aid].flushed then w else SignOff(w, aid, reason);
    SweepMarkKeeps(g, v, i, aid);
    AfterSilence(g, w, v, SweepMark(v, i, aid), Stutter);
  }

  lemma TickKeeps<S(!new), C(!new), B>(g: Rules<S, C, B>, w: World<S, B>, aid: nat, sid: nat, now: int)
    requires Lawful(g) && Inv(g, w) && aid < |w.actors| && w.actors[aid].owner == Some(sid)
    ensures Kept(g, w, w.(actors := w.actors[aid := RunTick(g, w.actors[aid], sid, now)]), Settle(w.actors[aid].key, now))
  {
    PlayKeeps(g, w, aid, RunTick(g, w.actors[aid], sid, now));
  }

  lemma IntentKeeps<S(!new), C(!new), B>(g: Rules<S, C, B>, w: World<S, B>, aid: nat, sid: nat, now: int, c: C)
    requires Lawful(g) && Inv(g, w) && aid < |w.actors| && w.actors[aid].owner == Some(sid)
    ensures Kept(g, w, w.(actors := w.actors[aid := RunIntent(g, w.actors[aid], sid, now, c)]), Act(w.actors[aid].key, now, c))
  {
    PlayKeeps(g, w, aid, RunIntent(g, w.actors[aid], sid, now, c));
  }

  // A tick or intent from a session that does not own the save changes nothing at all.
  lemma StrangersChangeNothing<S(!new), C(!new), B>(g: Rules<S, C, B>, w: World<S, B>, step: Step<C>)
    requires Enabled(w, step) && (step.Tick? || step.Intent?)
    requires w.actors[w.sessions[step.sid].aid].owner != Some(step.sid)
    ensures Apply(g, w, step) == w
  {
    var aid := w.sessions[step.sid].aid;
    assert w.actors[aid := w.actors[aid]] == w.actors;
  }

  lemma FlushStructure<S(!new), C(!new), B>(g: Rules<S, C, B>, w: World<S, B>, aid: nat)
    requires Structure(w) && aid < |w.actors| && w.actors[aid].stop && !w.actors[aid].flushed && (w.actors[aid].key.Keyed? ==> !w.actors[aid].dirty)
    ensures Structure(w.(actors := w.actors[aid := w.actors[aid].(flushed := true)]))
  {
  }

  lemma FlushKeeps<S(!new), C(!new), B>(g: Rules<S, C, B>, w: World<S, B>, aid: nat)
    requires Inv(g, w) && aid < |w.actors| && w.actors[aid].stop && !w.actors[aid].flushed && (w.actors[aid].key.Keyed? ==> !w.actors[aid].dirty)
    ensures Kept(g, w, w.(actors := w.actors[aid := w.actors[aid].(flushed := true)]), Stutter)
  {
    FlushStructure(g, w, aid);
  }

  lemma ExitRegistry<S(!new), C(!new), B>(g: Rules<S, C, B>, w: World<S, B>, aid: nat)
    requires Structure(w) && aid < |w.actors| && w.actors[aid].flushed
    ensures RegistryOk(w.(actors := w.actors[aid := w.actors[aid].(done := true)]))
    ensures PhasesOk(w.(actors := w.actors[aid := w.actors[aid].(done := true)]))
  {
  }

  lemma ExitOwners<S(!new), C(!new), B>(g: Rules<S, C, B>, w: World<S, B>, aid: nat)
    requires Structure(w) && aid < |w.actors| && w.actors[aid].flushed
    ensures OwnersOk(w.(actors := w.actors[aid := w.actors[aid].(done := true)]))
    ensures LockOk(w.(actors := w.actors[aid := w.actors[aid].(done := true)]))
    ensures SweepsOk(w.(actors := w.actors[aid := w.actors[aid].(done := true)]))
  {
  }

  lemma ExitKeeps<S(!new), C(!new), B>(g: Rules<S, C, B>, w: World<S, B>, aid: nat)
    requires Inv(g, w) && aid < |w.actors| && w.actors[aid].flushed
    ensures Kept(g, w, w.(actors := w.actors[aid := w.actors[aid].(done := true)]), Stutter)
  {
    ExitRegistry(g, w, aid);
    ExitOwners(g, w, aid);
  }

  lemma DetachBeginStructure<S(!new), C(!new), B>(g: Rules<S, C, B>, w: World<S, B>, sid: nat)
    requires Structure(w) && w.lock.Free? && sid < |w.sessions|
    ensures Structure(w.(lock := Releasing(sid)))
  {
  }

  lemma DetachBeginKeeps<S(!new), C(!new), B>(g: Rules<S, C, B>, w: World<S, B>, sid: nat)
    requires Inv(g, w) && w.lock.Free? && sid < |w.sessions|
    ensures Kept(g, w, w.(lock := Releasing(sid)), Stutter)
  {
    DetachBeginStructure(g, w, sid);
  }

  lemma FinishDetachStructure<S(!new), C(!new), B>(g: Rules<S, C, B>, w: World<S, B>, sid: nat)
    requires Structure(w) && sid in w.leaving
    ensures Structure(w.(leaving := w.leaving - {sid}, sessions := w.sessions[sid := DeliverKick(w.sessions[sid], None)]))
  {
  }

  lemma FinishDetachKeeps<S(!new), C(!new), B>(g: Rules<S, C, B>, w: World<S, B>, sid: nat)
    requires Inv(g, w) && sid in w.leaving
    ensures Kept(g, w, w.(leaving := w.leaving - {sid}, sessions := w.sessions[sid := DeliverKick(w.sessions[sid], None)]), Stutter)
  {
    FinishDetachStructure(g, w, sid);
  }

  lemma ShutdownBeginStructure<S(!new), C(!new), B>(g: Rules<S, C, B>, w: World<S, B>)
    requires Structure(w) && w.lock.Free?
    ensures Structure(w.(closing := true, sweeps := w.sweeps + [Sweep(w.registry.Values, None)]))
  {
  }

  lemma ShutdownBeginKeeps<S(!new), C(!new), B>(g: Rules<S, C, B>, w: World<S, B>)
    requires Inv(g, w) && w.lock.Free?
    ensures Kept(g, w, w.(closing := true, sweeps := w.sweeps + [Sweep(w.registry.Values, None)]), Stutter)
  {
    ShutdownBeginStructure(g, w);
  }

  lemma SweepLockStructure<S(!new), C(!new), B>(g: Rules<S, C, B>, w: World<S, B>, i: nat)
    requires Structure(w) && w.lock.Free? && i < |w.sweeps| && w.sweeps[i].current.Some?
    ensures Structure(w.(lock := Stopping(w.sweeps[i].current.value, BySweep(i))))
  {
  }

  lemma SweepLockKeeps<S(!new), C(!new), B>(g: Rules<S, C, B>, w: World<S, B>, i: nat)
    requires Inv(g, w) && w.lock.Free? && i < |w.sweeps| && w.sweeps[i].current.Some?
    ensures Kept(g, w, w.(lock := Stopping(w.sweeps[i].current.value, BySweep(i))), Stutter)
  {
    SweepLockStructure(g, w, i);
  }

  lemma FinalFlushKeeps<S(!new), C(!new), B>(g: Rules<S, C, B>, w: World<S, B>, aid: nat)
    requires Lawful(g) && Inv(g, w) && Enabled<S, C, B>(w, FinalFlush(aid))
    ensures Kept(g, w, Apply(g, w, FinalFlush(aid)), Stutter)
  {
    var v := Saved(g, w, aid, true);
    SavedKeeps(g, w, aid, true);
    FlushKeeps(g, v, aid);
    AfterSilence(g, w, v, Apply(g, w, FinalFlush(aid)), Stutter);
  }

  // Every step keeps the invariant and has exactly its atomic effect.
  lemma StepRefines<S(!new), C(!new), B>(g: Rules<S, C, B>, w: World<S, B>, step: Step<C>)
    requires Lawful(g) && Inv(g, w) && Enabled(w, step)
    ensures Inv(g, Apply(g, w, step))
    ensures Atomic(g, w, Apply(g, w, step), EffectOf(g, w, step))
  {
    match step
    case AttachBegin(key, seed, now) => AttachBeginKeeps(g, w, key, seed, now);
    case Load(seed) => LoadKeeps(g, w, seed);
    case LoadFails(seed, inserted) => LoadFailsKeeps(g, w, seed, inserted);
    case Join => JoinKeeps(g, w);
    case Release(saved) => ReleaseKeeps(g, w, saved);
    case CloseStop => CloseStopKeeps(g, w);
    case Drained => DrainedKeeps(g, w);
    case SweepKick(i, aid) => SweepKickKeeps(g, w, i, aid);
    case Autosave(aid, saved) => SavedKeeps(g, w, aid, saved);
    case FinalFlush(aid) => FinalFlushKeeps(g, w, aid);
    case LoopExit(aid) => ExitKeeps(g, w, aid);
    case DetachBegin(sid) => DetachBeginKeeps(g, w, sid);
    case FinishDetach(sid) => FinishDetachKeeps(g, w, sid);
    case ShutdownBegin => ShutdownBeginKeeps(g, w);
    case SweepLock(i) => SweepLockKeeps(g, w, i);
    case Tick(sid, now) =>
      if w.actors[w.sessions[sid].aid].owner == Some(sid) {
        TickKeeps(g, w, w.sessions[sid].aid, sid, now);
      } else {
        StrangersChangeNothing(g, w, step);
      }
    case Intent(sid, now, c) =>
      if w.actors[w.sessions[sid].aid].owner == Some(sid) {
        IntentKeeps(g, w, w.sessions[sid].aid, sid, now, c);
      } else {
        StrangersChangeNothing(g, w, step);
      }
  }
}
