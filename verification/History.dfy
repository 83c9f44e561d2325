/** Safety over whole runs: what can never be undone, whatever is interleaved with what. */
module History {
  import opened Domain
  import opened Schema
  import opened Statements
  import opened Verdicts
  import opened Protocol
  import opened Evolution
  import opened Invariant

  // ---------------------------------------------------------------- keys

  /** A key's status only moves forward: active is never regained, revoked is never left, although
      Revoke checks and writes in separate statements and Authenticate writes status too. */
  lemma StatusIsMonotone(s: System, es: seq<Event>, k: Uuid)
    requires Inv(s) && Feasible(s, es)
    requires k in s.db.keys && k in After(s, es).db.keys
    ensures var x, y := s.db.keys[k], After(s, es).db.keys[k];
            && x.status.Rank() <= y.status.Rank()
            && (x.status == KeyRevoked ==> y.status == KeyRevoked)
            && (y.status == KeyActive ==> x.status == KeyActive)
            && (x.status != KeyActive ==> y.lastUsedAt == x.lastUsedAt)
            && y.keyValue == x.keyValue && y.expiresAt == x.expiresAt
  {
    RunKeepsInv(s, es);
  }

  /** Key `k` can no longer be used: it is revoked, or its row is gone for good. */
  ghost predicate OutOfService(s: System, k: Uuid) {
    k in s.used && (k in s.db.keys ==> s.db.keys[k].status == KeyRevoked)
  }

  /** A committed decision to let the holder of key `k` publish. */
  predicate LetsIn(pc: Pc, k: Uuid) {
    || (pc.AuthDecided? && pc.verdict == Authenticated(k))
    || (pc.AuthReturned? && pc.answer == Some(Authenticated(k)))
  }

  lemma NoNewAdmission(s: System, e: Event, k: Uuid, h: Handler)
    requires Inv(s) && Enabled(s, e) && OutOfService(s, k)
    requires h in Next(s, e).procs && LetsIn(Next(s, e).procs[h], k)
    ensures h in s.procs && LetsIn(s.procs[h], k)
  {
    if e.Step? && e.h == h {
      var pc := s.procs[h];
      assert PcOk(s.db, s.clock, s.used, pc);
    }
  }

  /** Once a key is out of service, no Authenticate that commits later lets anyone in with it, and
      its last use is never rewritten, however many Authenticates were already under way. */
  lemma {:induction false} OutOfServiceForever(s: System, es: seq<Event>, k: Uuid)
    requires Inv(s) && Feasible(s, es) && OutOfService(s, k)
    ensures var s' := After(s, es);
            && OutOfService(s', k)
            && (k in s'.db.keys ==> k in s.db.keys && s'.db.keys[k].lastUsedAt == s.db.keys[k].lastUsedAt)
            && (forall h :: h in s'.procs && LetsIn(s'.procs[h], k) ==> h in s.procs && LetsIn(s.procs[h], k))
    decreases |es|
  {
    if es != [] {
      var s1 := Next(s, es[0]);
      NextKeepsInv(s, es[0]);
      forall h | h in s1.procs && LetsIn(s1.procs[h], k) ensures h in s.procs && LetsIn(s.procs[h], k) {
        NoNewAdmission(s, es[0], k, h);
      }
      OutOfServiceForever(s1, es[1..], k);
    }
  }

  /** The promise of revocation: from the moment a Revoke has succeeded, and for every continuation. */
  lemma RevocationIsFinal(s: System, es: seq<Event>, h: Handler)
    requires Inv(s) && Feasible(s, es)
    requires h in s.procs && s.procs[h].RevReturned? && s.procs[h].reply == Done
    ensures var s', k := After(s, es), s.procs[h].id;
            && (k in s'.db.keys ==>
                  && s'.db.keys[k].status == KeyRevoked
                  && k in s.db.keys
                  && s'.db.keys[k].lastUsedAt == s.db.keys[k].lastUsedAt)
            && (forall g :: g in s'.procs && LetsIn(s'.procs[g], k) ==> g in s.procs && LetsIn(s.procs[g], k))
  {
    assert PcOk(s.db, s.clock, s.used, s.procs[h]);
    OutOfServiceForever(s, es, s.procs[h].id);
  }

  // ---------------------------------------------------------------- streams

  /** An ended stream's row is never written again, and a vanished row never comes back. */
  lemma EndedIsFinal(s: System, es: seq<Event>, sid: Uuid)
    requires Inv(s) && Feasible(s, es) && sid in s.used && !Live(s.db, sid)
    ensures var s' := After(s, es);
            && !Live(s'.db, sid)
            && (sid in s'.db.streams ==> sid in s.db.streams && s'.db.streams[sid] == s.db.streams[sid])
  {
    RunKeepsInv(s, es);
    assert sid in s.db.streams ==> s.db.streams[sid].status == StreamEnded;
  }

  /** The event ends stream `sid`: active before, an ended row after. */
  ghost predicate Ends(s: System, e: Event, sid: Uuid)
    requires Enabled(s, e)
  {
    Live(s.db, sid) && sid in Next(s, e).db.streams && !Live(Next(s, e).db, sid)
  }

  ghost function Endings(s: System, es: seq<Event>, sid: Uuid): nat
    requires Feasible(s, es)
    decreases |es|
  {
    if es == [] then 0
    else (if Ends(s, es[0], sid) then 1 else 0) + Endings(Next(s, es[0]), es[1..], sid)
  }

  /** In any run a stream is ended at most once; if its row survives, exactly once when it went
      from active to ended and never otherwise. */
  lemma {:induction false} EndedOnce(s: System, es: seq<Event>, sid: Uuid)
    requires Inv(s) && Feasible(s, es) && sid in s.used
    ensures var n := Endings(s, es, sid);
            && n <= 1
            && (!Live(s.db, sid) ==> n == 0)
            && (sid in After(s, es).db.streams ==>
                  (n == 1 <==> Live(s.db, sid) && !Live(After(s, es).db, sid)))
    decreases |es|
  {
    if es != [] {
      var s1 := Next(s, es[0]);
      NextKeepsInv(s, es[0]);
      RunKeepsInv(s1, es[1..]);
      RowsOnlyEvolve(s, s1, After(s1, es[1..]), sid);
      EndedOnce(s1, es[1..], sid);
    }
  }

  lemma RowsOnlyEvolve(s: System, s1: System, s2: System, sid: Uuid)
    requires Evolves(s, s1) && Evolves(s1, s2) && sid in s.used
    ensures sid in s2.db.streams ==> sid in s1.db.streams && sid in s.db.streams
    ensures Live(s2.db, sid) ==> Live(s1.db, sid)
    ensures Live(s1.db, sid) ==> Live(s.db, sid)
  {
  }

  /** The same tables, except perhaps for when ended streams ended. */
  ghost predicate SameUpToEndTimes(t: Tables, u: Tables) {
    && t.broadcasters == u.broadcasters && t.keys == u.keys
    && t.streams.Keys == u.streams.Keys
    && forall sid :: sid in t.streams ==>
         t.streams[sid].(endedAt := None) == u.streams[sid].(endedAt := None)
  }

  /** A race between Revoke's EndStream and a not-ready's EndStreamByPath for the same active
      stream: whichever statement comes first succeeds, the other finds nothing, and the tables
      come out the same. */
  lemma RacingEnders(t: Tables, sid: Uuid, at: Instant, at': Instant)
    requires Constraints(t) && Coherent(t) && Live(t, sid)
    ensures var byId, byPath := EndStream(sid, at), EndStreamByPath(t.streams[sid].path, at');
            && Succeeds(t, byId) && !Succeeds(Run(t, byId), byPath)
            && Succeeds(t, byPath) && !Succeeds(Run(t, byPath), byId)
            && SameUpToEndTimes(Run(Run(t, byId), byPath), Run(Run(t, byPath), byId))
  {
    var path := t.streams[sid].path;
    StreamAtPathIs(t, sid);
    EndByPathOutcome(t, path, at');
    NothingLeftAtPath(t, sid, at);
  }

  lemma NothingLeftAtPath(t: Tables, sid: Uuid, at: Instant)
    requires Constraints(t) && Coherent(t) && Live(t, sid)
    ensures forall x :: !LiveAt(Run(t, EndStream(sid, at)), x, t.streams[sid].path)
  {
    var path := t.streams[sid].path;
    forall x ensures !LiveAt(Run(t, EndStream(sid, at)), x, path) {
      if x != sid && LiveAt(t, x, path) { OneActivePerPath(t, x, sid, path); }
    }
  }

  /** Paths agree with keys in every reachable state, rows and in-flight ready handlers alike,
      so at any path there is at most one active stream. */
  lemma PathsAgree(es: seq<Event>)
    requires Feasible(INITIAL, es)
    ensures var s := After(INITIAL, es);
            && (forall sid :: sid in s.db.streams ==>
                  && s.db.streams[sid].keyId in s.db.keys
                  && s.db.streams[sid].path == s.db.keys[s.db.streams[sid].keyId].keyValue)
            && (forall h :: h in s.procs && s.procs[h].RdyInserting? && s.procs[h].row.keyId in s.db.keys ==>
                  s.procs[h].row.path == s.db.keys[s.procs[h].row.keyId].keyValue)
            && (forall h :: h in s.procs && s.procs[h].RdyFound? && s.procs[h].keyId in s.db.keys ==>
                  s.procs[h].path == s.db.keys[s.procs[h].keyId].keyValue)
            && (forall a, b :: Live(s.db, a) && Live(s.db, b) && s.db.streams[a].path == s.db.streams[b].path ==> a == b)
  {
    ReachableInv(es);
    var s := After(INITIAL, es);
    forall h | h in s.procs ensures PcOk(s.db, s.clock, s.used, s.procs[h]) {
    }
    forall a, b | Live(s.db, a) && Live(s.db, b) && s.db.streams[a].path == s.db.streams[b].path ensures a == b {
      OneActivePerPath(s.db, a, b, s.db.streams[a].path);
    }
  }

  // ---------------------------------------------------------------- deletion

  /** Deleting a broadcaster removes exactly the broadcaster, its keys and their streams, leaves
      every other row as it was, and leaves no row that refers to one it removed. */
  lemma CascadeIsExact(t: Tables, b: Uuid)
    requires Constraints(t) && b in t.broadcasters
    ensures var u := Run(t, DeleteBroadcaster(b));
            && u.broadcasters.Keys == t.broadcasters.Keys - {b}
            && (forall k :: k in t.keys ==> (k in u.keys <==> t.keys[k].broadcasterId != b))
            && (forall k :: k in u.keys ==> k in t.keys && u.keys[k] == t.keys[k])
            && (forall sid :: sid in t.streams ==>
                  (sid in u.streams <==> t.keys[t.streams[sid].keyId].broadcasterId != b))
            && (forall sid :: sid in u.streams ==> sid in t.streams && u.streams[sid] == t.streams[sid])
            && ForeignKeys(u)
  {
    RunKeepsConstraints(t, DeleteBroadcaster(b));
  }

  /** A deleted key never returns, and no stream row ever refers to it. */
  lemma DeletedKeyStaysDeleted(s: System, es: seq<Event>, k: Uuid)
    requires Inv(s) && Feasible(s, es) && k in s.used && k !in s.db.keys
    ensures var s' := After(s, es);
            k !in s'.db.keys && forall sid :: sid in s'.db.streams ==> s'.db.streams[sid].keyId != k
  {
    RunKeepsInv(s, es);
  }

  /** From the deletion of a broadcaster on, whatever happens: its keys never exist again, no stream
      row ever refers to one of them, and no row refers to anything that is not there. */
  lemma DeletionIsFinal(s: System, h: Handler, c: Choice, es: seq<Event>, k: Uuid)
    requires Inv(s) && h in s.procs && s.procs[h].LeaveStart? && c.outcome != Refused
    requires OwnedBy(s.db, k, s.procs[h].broadcasterId)
    requires Enabled(s, Step(h, c)) && Feasible(Next(s, Step(h, c)), es)
    ensures var s' := After(Next(s, Step(h, c)), es);
            && s.procs[h].broadcasterId !in s'.db.broadcasters
            && k !in s'.db.keys
            && (forall sid :: sid in s'.db.streams ==> s'.db.streams[sid].keyId != k)
            && ForeignKeys(s'.db)
  {
    var s1 := Next(s, Step(h, c));
    assert s1.db == Cascade(s.db, s.procs[h].broadcasterId);
    NextKeepsInv(s, Step(h, c));
    RunKeepsInv(s1, es);
  }

  /** A Revoke of key `k`, or a ready webhook that has found key `k`, still to return. */
  predicate OnKey(pc: Pc, k: Uuid) {
    match pc
    case RdyFound(keyId, _, _, _) => keyId == k
    case RdyInserting(row) => row.keyId == k
    case RevStart(id) => id == k
    case RevFound(id) => id == k
    case RevKicking(id, _, _) => id == k
    case RevEnding(id, _, _) => id == k
    case RevStamping(id, _) => id == k
    case RevWriting(id, _, _) => id == k
    case _ => false
  }

  /** Ready has inserted nothing, Revoke reports that the key is not found (or the database error). */
  predicate FailedHarmlessly(pc: Pc, outcome: Outcome) {
    match pc
    case RdyReturned(created) => created == None
    case RevRefused(_, reply) => reply == (if outcome == Fine then NotFound else DbError)
    case RevReturned(_, _, reply) => reply == (if outcome == Fine then NotFound else DbError)
    case _ => false
  }

  /** Of a Revoke, under any interleaving, EndStream reaches a stream of Revoke's own key or nothing. */
  lemma RevokeEndsItsOwn(s: System, h: Handler, c: Choice)
    requires Inv(s) && Enabled(s, Step(h, c)) && s.procs[h].RevEnding?
    ensures var t, u := s.db, Next(s, Step(h, c)).db;
            && u.keys == t.keys && u.broadcasters == t.broadcasters && u.streams.Keys == t.streams.Keys
            && (forall sid :: sid in t.streams && t.streams[sid].keyId != s.procs[h].id ==> u.streams[sid] == t.streams[sid])
            && (!InUse(t, s.procs[h].id) ==> u == t)
  {
    assert PcOk(s.db, s.clock, s.used, s.procs[h]);
    EndingHitsItsOwn(s.db, s.clock, s.procs[h], c);
  }

  lemma EndingHitsItsOwn(t: Tables, now: Clock, pc: Pc, c: Choice)
    requires pc.RevEnding? && OnlyLiveIs(t, pc.id, pc.seen, pc.sid)
    ensures var u := TablesAfter(t, Advance(t, now, pc, c).effect);
            u == t || (LiveFor(t, pc.sid, pc.id) && u == t.(streams := t.streams[pc.sid := t.streams[pc.sid].EndedAt(now.db)]))
  {
  }

  lemma FailsOnMissingKey(t: Tables, now: Clock, used: set<Uuid>, pc: Pc, c: Choice, k: Uuid)
    requires ForeignKeys(t) && k !in t.keys && OnKey(pc, k) && PcOk(t, now, used, pc)
    ensures var m := Advance(t, now, pc, c);
            && TablesAfter(t, m.effect) == t
            && (OnKey(m.next, k) || (Finished(m.next) && FailedHarmlessly(m.next, c.outcome)))
  {
  }

  /** No step of handler `h` in this run changes a table, and if it returns it has failed. */
  ghost predicate RunsHarmlessly(s: System, es: seq<Event>, h: Handler)
    requires Feasible(s, es)
    decreases |es|
  {
    es != [] ==>
      var s1 := Next(s, es[0]);
      && (es[0].Step? && es[0].h == h ==>
            s1.db == s.db && (Finished(s1.procs[h]) ==> FailedHarmlessly(s1.procs[h], es[0].choice.outcome)))
      && RunsHarmlessly(s1, es[1..], h)
  }

  lemma HarmlessStep(s: System, e: Event, k: Uuid, h: Handler)
    requires Inv(s) && Enabled(s, e) && k !in s.db.keys && h in s.procs && OnKey(s.procs[h], k)
    ensures var s1 := Next(s, e);
            && h in s1.procs && (OnKey(s1.procs[h], k) || Finished(s1.procs[h]))
            && (e.Step? && e.h == h ==>
                  s1.db == s.db && (Finished(s1.procs[h]) ==> FailedHarmlessly(s1.procs[h], e.choice.outcome)))
  {
    if e.Step? && e.h == h {
      assert PcOk(s.db, s.clock, s.used, s.procs[h]);
      FailsOnMissingKey(s.db, s.clock, s.used, s.procs[h], e.choice, k);
    }
  }

  lemma {:induction false} ReturnedIsHarmless(s: System, es: seq<Event>, h: Handler)
    requires Feasible(s, es) && h in s.procs && Finished(s.procs[h])
    ensures RunsHarmlessly(s, es, h) && h in After(s, es).procs && Finished(After(s, es).procs[h])
    decreases |es|
  {
    if es != [] {
      ReturnedIsHarmless(Next(s, es[0]), es[1..], h);
    }
  }

  /** A handler caught in flight by the deletion of its key, wherever it is, changes nothing from then
      on and fails, however it is interleaved and however late it gets to run. */
  lemma {:induction false} InFlightOnDeletedKey(s: System, es: seq<Event>, k: Uuid, h: Handler)
    requires Inv(s) && Feasible(s, es) && k in s.used && k !in s.db.keys
    requires h in s.procs && OnKey(s.procs[h], k)
    ensures RunsHarmlessly(s, es, h)
    ensures h in After(s, es).procs && (OnKey(After(s, es).procs[h], k) || Finished(After(s, es).procs[h]))
    decreases |es|
  {
    if es != [] {
      var s1 := Next(s, es[0]);
      NextKeepsInv(s, es[0]);
      HarmlessStep(s, es[0], k, h);
      if Finished(s1.procs[h]) {
        ReturnedIsHarmless(s1, es[1..], h);
      } else {
        InFlightOnDeletedKey(s1, es[1..], k, h);
      }
    }
  }
}
