// The closures of the save lifecycle as they run: objects updated in place on an
// actor's loop. Each method does what the step machine's function of the same
// closure says, so the machine's theorems are about these bodies.
module SaveActor {
  import opened Common
  import L = Lifecycle

  class SessionHandle {
    const id: nat
    const aid: nat
    var notices: seq<L.Reason>
    var spent: bool   // kickOnce has fired
    var closed: bool  // the kick channel is closed

    ghost predicate Valid()
      reads this
    {
      spent == closed && (!spent ==> notices == [])
    }

    ghost function Model(): L.Session
      reads this
    {
      L.Session(aid, notices, closed)
    }

    constructor (id: nat, aid: nat)
      ensures Valid() && Model() == L.Session(aid, [], false)
      ensures this.id == id && this.aid == aid
    {
      this.id, this.aid := id, aid;
      notices, spent, closed := [], false, false;
    }

    // The channel has one place: a send that found it full would block the actor.
    method Send(reason: L.Reason)
      requires notices == []
      modifies this`notices
      ensures notices == [reason]
    {
      notices := notices + [reason];
    }

    method DeliverKick(reason: Option<L.Reason>)
      requires Valid()
      modifies this
      ensures Valid() && Model() == L.DeliverKick(old(Model()), reason)
    {
      if !spent {
        spent := true;
        if reason.Some? {
          Send(reason.value);
        }
        closed := true;
      }
    }
  }

  class SaveTable<B> {
    var rows: map<L.Key, L.Row<B>>

    constructor (rows: map<L.Key, L.Row<B>>)
      ensures this.rows == rows
    {
      this.rows := rows;
    }

    // LoadOrCreateSave's insert.
    method Insert(key: L.Key, payload: B, board: L.Board)
      requires key !in rows
      modifies this
      ensures rows == old(rows)[key := L.Row(payload, board)]
    {
      rows := rows[key := L.Row(payload, board)];
    }

    // PersistSaveWithContracts: updates a row that exists, never creates one; the
    // write as a whole may fail.
    method Update(key: L.Key, payload: B, board: L.Board, succeeds: bool) returns (ok: bool)
      modifies this
      ensures ok == (succeeds && key in old(rows))
      ensures rows == if ok then old(rows)[key := L.Row(payload, board)] else old(rows)
    {
      ok := succeeds && key in rows;
      if ok {
        rows := rows[key := L.Row(payload, board)];
      }
    }
  }

  class SaveActor<S, C, B> {
    const rules: L.Rules<S, C, B>
    const key: L.Key
    var state: S
    var dirty: bool
    var session: SessionHandle?
    var stop: bool     // the stop channel is closed
    var flushed: bool  // the loop has left its select
    var done: bool     // the done channel is closed

    ghost function Model(): L.Actor<S>
      reads this
    {
      L.Actor(key, state, dirty, if session == null then None else Some(session.id), stop, flushed, done)
    }

    constructor (rules: L.Rules<S, C, B>, key: L.Key, state: S)
      ensures this.rules == rules && this.key == key
      ensures Model() == L.Actor(key, state, false, None, false, false, false)
    {
      this.rules, this.key, this.state := rules, key, state;
      dirty, session, stop, flushed, done := false, null, false, false, false;
    }

    // The loop's last turn, taken once stop is closed: the final flush, then done.
    method FlushOut(table: SaveTable<B>, succeeds: bool)
      requires stop && !flushed
      modifies this`dirty, this`flushed, table
      ensures Model() == L.PersistActor(old(Model()), old(table.rows), succeeds).(flushed := true) && session == old(session)
      ensures table.rows == L.PersistStore(rules, old(Model()), old(table.rows), succeeds)
    {
      Persist(table, succeeds);
      flushed := true;
    }

    // Session ids come from one counter, so one id names one handle.
    ghost predicate Names(s: SessionHandle)
      reads this
    {
      session != null && session.id == s.id ==> session == s
    }

    method Persist(table: SaveTable<B>, succeeds: bool)
      modifies this`dirty, table
      ensures Model() == L.PersistActor(old(Model()), old(table.rows), succeeds)
      ensures table.rows == L.PersistStore(rules, old(Model()), old(table.rows), succeeds)
    {
      if key.Guest? || !dirty {
        return;
      }
      var ok := table.Update(key, rules.encode(state), rules.board(state), succeeds);
      if ok {
        dirty := false;
      }
    }

    method CatchUp(now: int)
      modifies this`state, this`dirty
      ensures Model() == L.CatchUp(rules, old(Model()), now)
    {
      var elapsed := rules.elapses(state, now);
      state := rules.advance(state, now);
      if elapsed {
        dirty := true;
      }
    }

    // Session.Advance's closure.
    method Tick(s: SessionHandle, now: int) returns (snapshot: Option<S>)
      requires Names(s)
      modifies this`state, this`dirty
      ensures Model() == L.RunTick(rules, old(Model()), s.id, now)
      ensures snapshot == if old(session) == s then Some(state) else None
    {
      if session != s {
        return None;
      }
      CatchUp(now);
      snapshot := Some(state);
    }

    // Session.intent's closure. A snapshot is taken whether or not the intent is
    // accepted, but only for the owner.
    method Intent(s: SessionHandle, now: int, command: C) returns (snapshot: Option<S>, accepted: bool)
      requires Names(s)
      modifies this`state, this`dirty
      ensures Model() == L.RunIntent(rules, old(Model()), s.id, now, command)
      ensures snapshot == if old(session) == s then Some(state) else None
      ensures accepted ==> old(session) == s && dirty
    {
      if session != s {
        return None, false;
      }
      CatchUp(now);
      var (next, ok) := rules.act(state, now, command);
      state := next;
      accepted := ok;
      if ok {
        dirty := true;
      }
      snapshot := Some(state);
    }

    // Attach's closure.
    method Join(s: SessionHandle, policy: L.Policy, now: int) returns (refused: bool)
      requires session != s && (session != null ==> session.Valid())
      modifies this`state, this`dirty, this`session, session
      ensures refused == L.Refused(old(Model()), policy)
      ensures session == (if refused then old(session) else s) && (old(session) != null ==> old(session).Valid())
      ensures refused ==> Model() == old(Model()) && (old(session) != null ==> old(session).Model() == old(session.Model()))
      ensures !refused ==> Model() == L.RunJoin(rules, old(Model()), s.id, now)
      ensures !refused && old(session) != null ==>
                old(session).Model() == L.DeliverKick(old(session.Model()), Some(L.TakenOver))
    {
      if session != null && (key.Guest? || policy.Refuse?) {
        return true;
      }
      if session != null {
        session.DeliverKick(Some(L.TakenOver));
      }
      session := s;
      if key.Keyed? {
        CatchUp(now);
      }
      refused := false;
    }

    // detach's closure: idle says whether this session was still the owner.
    method Release(s: SessionHandle, table: SaveTable<B>, succeeds: bool) returns (idle: bool)
      requires Names(s)
      modifies this`dirty, this`session, table
      ensures idle == (old(Model()).owner == Some(s.id)) && session == (if idle then null else old(session))
      ensures var left := if idle then old(Model()).(owner := None) else old(Model());
        && Model() == L.PersistActor(left, old(table.rows), succeeds)
        && table.rows == L.PersistStore(rules, left, old(table.rows), succeeds)
    {
      idle := session == s;
      if idle {
        session := null;
      }
      Persist(table, succeeds);
    }

    // Shutdown's closure: the owner hears why, and owns the save no longer.
    method SignOff()
      requires session != null ==> session.Valid()
      modifies this`session, session
      ensures Model() == old(Model()).(owner := None) && session == null
      ensures old(session) != null ==> old(session).Valid()
      ensures old(session) != null ==>
                old(session).Model() ==
                L.DeliverKick(old(session.Model()), Some(if key.Guest? then L.GuestEnding else L.ServerClosing))
    {
      if session != null {
        session.DeliverKick(Some(if key.Guest? then L.GuestEnding else L.ServerClosing));
        session := null;
      }
    }
  }
}
