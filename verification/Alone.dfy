/** One handler run to its end with nothing in between: the schedule the sequential handlers follow. */
module Alone {
  import opened Domain
  import opened Schema
  import opened Statements
  import opened KeyText
  import opened Verdicts
  import opened Protocol
  import opened Evolution
  import opened Invariant
  import opened Progress
  import B = Base64Url

  /** The tables and the final program counter when every statement goes well, the clocks stand
      still, and the handler draws `id` and `random`. */
  ghost function Alone(t: Tables, now: Clock, pc: Pc, id: Uuid, random: seq<B.byte>): (Tables, Pc)
    decreases Left(pc)
  {
    if Finished(pc) then (t, pc)
    else
      var m := Advance(t, now, pc, Choice(Fine, id, random));
      EveryStepIsProgress(t, now, pc, Choice(Fine, id, random));
      Alone(TablesAfter(t, m.effect), now, m.next, id, random)
  }

  /** A handler draws an identifier at most once, in its last step. */
  predicate Inserting(pc: Pc) {
    pc.RdyInserting? || pc.NewInserting? || pc.JoinStart?
  }

  lemma DrawMattersOnlyAtInsert(t: Tables, now: Clock, pc: Pc, id: Uuid, id': Uuid, random: seq<B.byte>)
    requires !Finished(pc) && (Inserting(pc) ==> id' == id)
    ensures Advance(t, now, pc, Choice(Fine, id', random)) == Advance(t, now, pc, Choice(Fine, id, random))
    ensures Inserting(pc) ==> Finished(Advance(t, now, pc, Choice(Fine, id, random)).next)
  {
  }

  /** Every event is a step of `h`. */
  predicate OnlySteps(es: seq<Event>, h: Handler) {
    forall e :: e in es ==> e.Step? && e.h == h
  }

  /** Nobody but `h` holds a lock, and `id` is still to be drawn. */
  ghost predicate Undisturbed(s: System, h: Handler, id: Uuid) {
    && Inv(s) && h in s.procs && (forall k :: k in s.locks ==> s.locks[k] == h)
    && id !in s.used
  }

  lemma AloneStep(s: System, h: Handler, id: Uuid, random: seq<B.byte>) returns (c: Choice)
    requires Undisturbed(s, h, id) && !Finished(s.procs[h]) && |random| == ENTROPY
    ensures Enabled(s, Step(h, c))
    ensures var s', pc := Next(s, Step(h, c)), s.procs[h];
            && h in s'.procs && s'.procs == s.procs[h := s'.procs[h]]
            && s'.clock == s.clock && Left(s'.procs[h]) < Left(pc)
            && (forall k :: k in s'.locks ==> s'.locks[k] == h) && (Finished(s'.procs[h]) || id !in s'.used)
            && Alone(s.db, s.clock, pc, id, random) == Alone(s'.db, s.clock, s'.procs[h], id, random)
  {
    var pc := s.procs[h];
    var other := Above(s.used + {id});
    var id' := if Inserting(pc) then id else other;
    c := Choice(Fine, id', random);
    assert id' !in s.used && (id' == id <==> Inserting(pc));
    OwnLocksNeverWait(s, h);
    DrawMattersOnlyAtInsert(s.db, s.clock, pc, id, id', random);
    EveryStepIsProgress(s.db, s.clock, pc, c);
  }

  lemma StillUndisturbed(s: System, h: Handler, c: Choice, id: Uuid)
    requires Undisturbed(s, h, id) && Enabled(s, Step(h, c))
    requires var s' := Next(s, Step(h, c));
             h in s'.procs && (forall k :: k in s'.locks ==> s'.locks[k] == h) && id !in s'.used
    ensures Undisturbed(Next(s, Step(h, c)), h, id)
  {
    NextKeepsInv(s, Step(h, c));
  }

  /** When no other handler holds a lock, running alone is one of the system's schedules. */
  lemma {:induction false} AloneIsARun(s: System, h: Handler, id: Uuid, random: seq<B.byte>) returns (es: seq<Event>)
    requires Undisturbed(s, h, id) && |random| == ENTROPY
    ensures Feasible(s, es) && OnlySteps(es, h)
    ensures var end := Alone(s.db, s.clock, s.procs[h], id, random);
            var s' := After(s, es);
            s'.db == end.0 && s'.procs == s.procs[h := end.1] && Finished(end.1)
    decreases Left(s.procs[h])
  {
    if Finished(s.procs[h]) {
      es := [];
      assert s.procs[h := s.procs[h]] == s.procs;
    } else {
      var c := AloneStep(s, h, id, random);
      var e, rest := Step(h, c), [];
      if !Finished(Next(s, e).procs[h]) {
        StillUndisturbed(s, h, c, id);
        rest := AloneIsARun(Next(s, e), h, id, random);
      }
      RunStarts(s, e, rest);
      es := [e] + rest;
    }
  }

  lemma OwnLocksNeverWait(s: System, h: Handler)
    requires LocksOk(s.locks, s.procs) && h in s.procs && (forall k :: k in s.locks ==> s.locks[k] == h)
    ensures !Waits(s.db, s.locks, s.procs[h])
  {
    if Waits(s.db, s.locks, s.procs[h]) {
      var k := WaitsForALock(s.db, s.locks, s.procs[h]);
      HolderNeverWaits(s.db, s.locks, s.procs[h]);
    }
  }

  // ---------------------------------------------------------------- where each handler ends up alone

  /** An Authenticate alone gives the tables' verdict and has its effect. */
  lemma AuthenticateAlone(t: Tables, req: AuthRequest, now: Clock, id: Uuid, random: seq<B.byte>)
    requires Constraints(t)
    ensures var v := Judge(t, req, now.app);
            Alone(t, now, Start(CallAuthenticate(req), now), id, random)
            == (Settle(Materialising, t, req, v, now.db), AuthReturned(req, Some(v)))
  {
    if EarlyVerdict(req) == None {
      var tx := Tx(req, now, now.db);
      assert Alone(t, now, AuthStart(req, now), id, random) == Alone(t, now, AuthBegun(tx), id, random);
      match KeyByValue(t, Presented(req))
      case None => ClosingAlone(t, now, tx, None, UnknownKey, id, random);
      case Some(k) => LockedAlone(t, now, tx, k, id, random);
    }
  }

  lemma ClosingAlone(t: Tables, now: Clock, tx: Tx, held: Option<Uuid>, v: Verdict, id: Uuid, random: seq<B.byte>)
    ensures Alone(t, now, AuthClosing(tx, held, v), id, random) == (t, AuthReturned(tx.req, Some(v)))
  {
    DecidedAlone(t, now, tx.req, v, id, random);
  }

  lemma DecidedAlone(t: Tables, now: Clock, req: AuthRequest, v: Verdict, id: Uuid, random: seq<B.byte>)
    ensures Alone(t, now, AuthDecided(req, v), id, random) == (t, AuthReturned(req, Some(v)))
  {
    assert Alone(t, now, AuthReturned(req, Some(v)), id, random) == (t, AuthReturned(req, Some(v)));
  }

  lemma LockedAlone(t: Tables, now: Clock, tx: Tx, k: Uuid, id: Uuid, random: seq<B.byte>)
    requires Constraints(t) && k in t.keys && t.keys[k].keyValue == Presented(tx.req) && EarlyVerdict(tx.req) == None
    requires KeyByValue(t, Presented(tx.req)) == Some(k)
    ensures var v := Judge(t, tx.req, now.app);
            Alone(t, now, AuthLocked(tx, k, t.keys[k]), id, random)
            == (Settle(Materialising, t, tx.req, v, tx.begunAt), AuthReturned(tx.req, Some(v)))
  {
    var key := t.keys[k];
    if key.status == KeyRevoked {
      ClosingAlone(t, now, tx, Some(k), RevokedKey, id, random);
    } else if key.status == KeyExpired {
      ClosingAlone(t, now, tx, Some(k), ExpiredKey, id, random);
      MarkingTwice(t, k);
    } else if key.PastExpiry(now.app) {
      ExpiringAlone(t, now, tx, k, key, id, random);
    } else {
      CheckingAlone(t, now, tx, k, key, id, random);
    }
  }

  lemma ExpiringAlone(t: Tables, now: Clock, tx: Tx, k: Uuid, key: StreamKey, id: Uuid, random: seq<B.byte>)
    ensures Alone(t, now, AuthExpiring(tx, k, key, now.app), id, random)
            == (Run(t, MarkExpired(k)), AuthReturned(tx.req, Some(ExpiredKey)))
  {
    var u := Run(t, MarkExpired(k));
    DecidedAlone(u, now, tx.req, ExpiredKey, id, random);
    assert Alone(t, now, AuthCommitExpired(tx, k, key, now.app), id, random)
        == Alone(u, now, AuthDecided(tx.req, ExpiredKey), id, random);
  }

  lemma CheckingAlone(t: Tables, now: Clock, tx: Tx, k: Uuid, key: StreamKey, id: Uuid, random: seq<B.byte>)
    ensures Alone(t, now, AuthChecking(tx, k, key, now.app), id, random)
            == if InUse(t, k) then (t, AuthReturned(tx.req, Some(KeyInUse)))
               else (Run(t, TouchLastUsed(k, tx.begunAt)), AuthReturned(tx.req, Some(Authenticated(k))))
  {
    if InUse(t, k) {
      ClosingAlone(t, now, tx, Some(k), KeyInUse, id, random);
    } else {
      var u := Run(t, TouchLastUsed(k, tx.begunAt));
      DecidedAlone(u, now, tx.req, Authenticated(k), id, random);
      assert Alone(t, now, AuthTouching(tx, k, key, now.app), id, random)
          == Alone(t, now, AuthCommitTouch(tx, k, key, now.app), id, random)
          == Alone(u, now, AuthDecided(tx.req, Authenticated(k)), id, random);
    }
  }

  /** The tables after a Revoke alone. */
  ghost function Revoked(t: Tables, id: Uuid, now: Clock): Tables {
    if id !in t.keys || t.keys[id].status != KeyActive then t
    else
      var freed := match StreamOfKey(t, id)
                   case None => t
                   case Some(sid) => Run(t, EndStream(sid, now.db));
      Run(freed, UpdateStatus(id, KeyRevoked, Some(now.app)))
  }

  ghost function RevokeReply(t: Tables, id: Uuid): Reply {
    if id !in t.keys then NotFound
    else if t.keys[id].status != KeyActive then InvalidStatus
    else Done
  }

  lemma RevokeAlone(t: Tables, id: Uuid, now: Clock, newId: Uuid, random: seq<B.byte>)
    ensures var end := Alone(t, now, Start(CallRevoke(id), now), newId, random);
            && end.0 == Revoked(t, id, now)
            && (end.1.RevReturned? || end.1.RevRefused?) && end.1.reply == RevokeReply(t, id)
  {
    if RevokeReply(t, id) == Done {
      FoundRevokeAlone(t, id, now, newId, random);
      assert Alone(t, now, RevStart(id), newId, random) == Alone(t, now, RevFound(id), newId, random);
    }
  }

  lemma FoundRevokeAlone(t: Tables, id: Uuid, now: Clock, newId: Uuid, random: seq<B.byte>)
    requires RevokeReply(t, id) == Done
    ensures var end := Alone(t, now, RevFound(id), newId, random);
            end.0 == Revoked(t, id, now) && end.1.RevReturned? && end.1.reply == Done
  {
    match StreamOfKey(t, id)
    case None =>
      StampingAlone(t, id, Sighting(None, false, t.streams.Keys), now, newId, random);
    case Some(sid) =>
      EndingAlone(t, id, sid, now, newId, random);
      assert Alone(t, now, RevFound(id), newId, random)
          == Alone(t, now, RevKicking(id, sid, t.streams.Keys), newId, random);
  }

  lemma EndingAlone(t: Tables, id: Uuid, sid: Uuid, now: Clock, newId: Uuid, random: seq<B.byte>)
    requires id in t.keys
    ensures var look := Sighting(Some(sid), false, t.streams.Keys);
            Alone(t, now, RevKicking(id, sid, t.streams.Keys), newId, random)
            == (Run(Run(t, EndStream(sid, now.db)), UpdateStatus(id, KeyRevoked, Some(now.app))), RevReturned(id, look, Done))
  {
    var look := Sighting(Some(sid), false, t.streams.Keys);
    EndingThenStamping(t, id, sid, now, newId, random);
    StampingAlone(Run(t, EndStream(sid, now.db)), id, look, now, newId, random);
  }

  lemma EndingThenStamping(t: Tables, id: Uuid, sid: Uuid, now: Clock, newId: Uuid, random: seq<B.byte>)
    ensures var look := Sighting(Some(sid), false, t.streams.Keys);
            Alone(t, now, RevKicking(id, sid, t.streams.Keys), newId, random)
            == Alone(Run(t, EndStream(sid, now.db)), now, RevStamping(id, look), newId, random)
  {
    assert Alone(t, now, RevKicking(id, sid, t.streams.Keys), newId, random)
        == Alone(t, now, RevEnding(id, sid, t.streams.Keys), newId, random);
  }

  lemma StampingAlone(t: Tables, id: Uuid, look: Sighting, now: Clock, newId: Uuid, random: seq<B.byte>)
    requires id in t.keys
    ensures Alone(t, now, RevStamping(id, look), newId, random)
            == (Run(t, UpdateStatus(id, KeyRevoked, Some(now.app))), RevReturned(id, look, Done))
  {
    var u := Run(t, UpdateStatus(id, KeyRevoked, Some(now.app)));
    assert Alone(t, now, RevWriting(id, look, now.app), newId, random)
        == Alone(u, now, RevReturned(id, look, Done), newId, random);
  }

  /** With nothing in between, a successful Revoke leaves its key revoked and without an active
      stream, ends exactly the stream that was active on it, and touches nothing else. */
  lemma RevokedIsExact(t: Tables, id: Uuid, now: Clock)
    requires Constraints(t) && RevokeReply(t, id) == Done
    ensures var u := Revoked(t, id, now);
            && u.broadcasters == t.broadcasters
            && u.keys == t.keys[id := t.keys[id].(status := KeyRevoked, revokedAt := Some(now.app))]
            && !InUse(u, id)
            && u.streams.Keys == t.streams.Keys
            && (forall x :: x in t.streams ==>
                  u.streams[x] == if LiveFor(t, x, id) then t.streams[x].(status := StreamEnded, endedAt := Some(now.db))
                                  else t.streams[x])
  {
    var u := Revoked(t, id, now);
    RevokeReadsTheOnlyStream(t, id);
    assert forall x :: LiveFor(u, x, id) ==> LiveFor(t, x, id);
  }

  /** A ready webhook opens a stream exactly when its path is a key without an active stream and
      the source fits its columns.  The key's status is not asked for. */
  ghost predicate Opens(t: Tables, path: string, sourceType: string, sourceId: string) {
    && path != ""
    && KeyByValue(t, path).Some?
    && !InUse(t, KeyByValue(t, path).value)
    && SourceFits(sourceType, sourceId)
  }

  ghost function Opened(t: Tables, path: string, sourceType: string, sourceId: string, now: Clock, id: Uuid): Tables {
    if !Opens(t, path, sourceType, sourceId) then t
    else
      var row := Stream(KeyByValue(t, path).value, path, StreamActive, now.app, None,
                        NonEmpty(sourceType), NonEmpty(sourceId));
      t.(streams := t.streams[id := row])
  }

  lemma ReadyLookup(t: Tables, path: string, sourceType: string, sourceId: string, now: Clock, id: Uuid, random: seq<B.byte>)
    ensures Alone(t, now, RdyStart(path, sourceType, sourceId), id, random)
            == if path != "" && KeyByValue(t, path).Some?
               then Alone(t, now, RdyFound(KeyByValue(t, path).value, path, sourceType, sourceId), id, random)
               else (t, RdyReturned(None))
  {
    var next := Advance(t, now, RdyStart(path, sourceType, sourceId), Choice(Fine, id, random)).next;
    if next == RdyReturned(None) {
      assert Alone(t, now, next, id, random) == (t, next);
    }
  }

  lemma ReadyAlone(t: Tables, path: string, sourceType: string, sourceId: string, now: Clock, id: Uuid, random: seq<B.byte>)
    requires Widths(t) && id !in t.streams
    ensures Alone(t, now, Start(CallReady(path, sourceType, sourceId), now), id, random)
            == (Opened(t, path, sourceType, sourceId, now, id),
                RdyReturned(if Opens(t, path, sourceType, sourceId) then Some(id) else None))
  {
    ReadyLookup(t, path, sourceType, sourceId, now, id, random);
    if path != "" && KeyByValue(t, path).Some? {
      var k := KeyByValue(t, path).value;
      assert |path| == |t.keys[k].keyValue|;
      FoundAlone(t, k, path, sourceType, sourceId, now, id, random);
    }
  }

  lemma FoundAlone(t: Tables, k: Uuid, path: string, sourceType: string, sourceId: string,
                   now: Clock, id: Uuid, random: seq<B.byte>)
    requires k in t.keys && id !in t.streams && |path| <= MAX_PATH
    ensures var row := Stream(k, path, StreamActive, now.app, None, NonEmpty(sourceType), NonEmpty(sourceId));
            Alone(t, now, RdyFound(k, path, sourceType, sourceId), id, random)
            == if !InUse(t, k) && SourceFits(sourceType, sourceId)
               then (t.(streams := t.streams[id := row]), RdyReturned(Some(id)))
               else (t, RdyReturned(None))
  {
    var row := Stream(k, path, StreamActive, now.app, None, NonEmpty(sourceType), NonEmpty(sourceId));
    InsertingAlone(t, row, now, id, random);
    assert Alone(t, now, RdyFound(k, path, sourceType, sourceId), id, random) == Alone(t, now, RdyInserting(row), id, random);
  }

  lemma InsertingAlone(t: Tables, row: Stream, now: Clock, id: Uuid, random: seq<B.byte>)
    ensures var st := InsertStream(id, row);
            Alone(t, now, RdyInserting(row), id, random)
            == (Run(t, st), RdyReturned(if Succeeds(t, st) then Some(id) else None))
  {
    var st := InsertStream(id, row);
    var end := RdyReturned(if Succeeds(t, st) then Some(id) else None);
    assert Alone(Run(t, st), now, end, id, random) == (Run(t, st), end);
  }

  /** A key creation alone adds one fresh active key, unless its owner is missing or its text taken. */
  lemma CreateAlone(t: Tables, owner: Uuid, expiresAt: Option<Instant>, now: Clock, id: Uuid, random: seq<B.byte>)
    requires id !in t.keys && |random| == ENTROPY
    ensures var added := owner in t.broadcasters && KeyByValue(t, Generated(random)) == None;
            var key := StreamKey(Generated(random), owner, KeyActive, now.app, expiresAt, None, None);
            Alone(t, now, Start(CallCreateKey(owner, expiresAt), now), id, random)
            == if added then (t.(keys := t.keys[id := key]), NewReturned(Some(id))) else (t, NewReturned(None))
  {
    GeneratedMatchesPattern(random);
    var key := StreamKey(Generated(random), owner, KeyActive, now.app, expiresAt, None, None);
    var st := InsertKey(id, key);
    var end := NewReturned(if Succeeds(t, st) then Some(id) else None);
    assert Alone(t, now, NewInserting(key), id, random) == Alone(Run(t, st), now, end, id, random) == (Run(t, st), end);
  }

  /** A not-ready alone ends the stream at its path, or finds none; an empty path is refused. */
  lemma NotReadyAlone(t: Tables, path: string, now: Clock, id: Uuid, random: seq<B.byte>)
    requires Constraints(t) && Coherent(t)
    ensures Alone(t, now, Start(CallNotReady(path), now), id, random)
            == if path == "" then (t, EndReturned(path, BadRequest)) else
               match StreamAtPath(t, path)
               case None => (t, EndReturned(path, NotFound))
               case Some(sid) =>
                 (t.(streams := t.streams[sid := t.streams[sid].(status := StreamEnded, endedAt := Some(now.db))]),
                  EndReturned(path, Done))
  {
    if path != "" {
      var st := EndStreamByPath(path, now.db);
      EndByPathOutcome(t, path, now.db);
      var end := EndReturned(path, if Succeeds(t, st) then Done else NotFound);
      assert Alone(t, now, EndStart(path), id, random) == Alone(Run(t, st), now, end, id, random) == (Run(t, st), end);
    }
  }

  /** Creating a broadcaster alone adds exactly one row under the fresh identifier, if the name fits. */
  lemma JoinAlone(t: Tables, name: string, now: Clock, id: Uuid, random: seq<B.byte>)
    requires id !in t.broadcasters
    ensures Alone(t, now, JoinStart(name), id, random)
            == if |name| <= MAX_DISPLAY_NAME then (t.(broadcasters := t.broadcasters[id := Broadcaster(name)]), BroadcasterReturned(Done))
               else (t, BroadcasterReturned(DbError))
  {
    var st := InsertBroadcaster(id, Broadcaster(name));
    var end := BroadcasterReturned(if Succeeds(t, st) then Done else DbError);
    assert Alone(t, now, JoinStart(name), id, random) == Alone(Run(t, st), now, end, id, random) == (Run(t, st), end);
  }

  /** Deleting a broadcaster alone runs the cascade, or reports that there is nothing to delete. */
  lemma LeaveAlone(t: Tables, b: Uuid, now: Clock, id: Uuid, random: seq<B.byte>)
    ensures Alone(t, now, LeaveStart(b), id, random)
            == if b in t.broadcasters then (Cascade(t, b), BroadcasterReturned(Done))
               else (t, BroadcasterReturned(NotFound))
  {
    var st := DeleteBroadcaster(b);
    var end := BroadcasterReturned(if Succeeds(t, st) then Done else NotFound);
    assert Alone(t, now, LeaveStart(b), id, random) == Alone(Run(t, st), now, end, id, random) == (Run(t, st), end);
  }

  /** From any tables, a ready webhook for a free key followed by a not-ready for the same path
      restores every row there was, and adds one ended stream on that key. */
  lemma ReadyThenNotReady(t: Tables, path: string, sourceType: string, sourceId: string, id: Uuid, up: Clock, down: Clock)
    requires Constraints(t) && Coherent(t) && id !in t.streams
    requires Opens(t, path, sourceType, sourceId)
    ensures var u := Opened(t, path, sourceType, sourceId, up, id);
            var w := Run(u, EndStreamByPath(path, down.db));
            && Live(u, id) && !Opens(u, path, sourceType, sourceId)
            && w.keys == t.keys && w.broadcasters == t.broadcasters
            && w.streams.Keys == t.streams.Keys + {id}
            && (forall x :: x in t.streams ==> w.streams[x] == t.streams[x])
            && w.streams[id] == Stream(KeyByValue(t, path).value, path, StreamEnded, up.app, Some(down.db),
                                       NonEmpty(sourceType), NonEmpty(sourceId))
            && Opens(w, path, sourceType, sourceId)
  {
    var k := KeyByValue(t, path).value;
    var u := Opened(t, path, sourceType, sourceId, up, id);
    var w := Run(u, EndStreamByPath(path, down.db));
    assert LiveFor(u, id, k) && LiveAt(u, id, path);
    forall x | LiveAt(u, x, path) ensures x == id {
      if x != id {
        KeyByValueIs(t, t.streams[x].keyId);
        assert LiveFor(t, x, k);
      }
    }
    EndAllOfOne(u, id, path, down.db);
    assert w.streams == u.streams[id := u.streams[id].EndedAt(down.db)];
    forall x ensures !LiveFor(w, x, k) {
      assert !LiveFor(t, x, k);
    }
  }
}
