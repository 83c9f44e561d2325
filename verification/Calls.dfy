/** What each call does, from its arrival to its answer, whatever runs beside it: every step its
    handler takes is one the call's contract allows.  The contracts are written in terms of rows,
    without the functions that the transition system is made of. */
module Calls {
  import opened Domain
  import opened Schema
  import opened Statements
  import opened KeyText
  import opened Verdicts
  import opened Protocol
  import opened Evolution
  import opened Invariant
  import opened Refinement
  import B = Base64Url

  // ---------------------------------------------------------------- what a handler carries

  function TextOrNone(s: string): Option<string> {
    if |s| == 0 then None else Some(s)
  }

  predicate Between(since: Instant, at: Instant, now: Instant) {
    since <= at <= now
  }

  /** A row a ready webhook for `path` makes. */
  predicate ReadyRow(row: Stream, path: string, sourceType: string, sourceId: string, since: Clock, now: Clock) {
    && row.path == path != ""
    && row.sourceType == TextOrNone(sourceType) && row.sourceId == TextOrNone(sourceId)
    && Between(since.app, row.startedAt, now.app)
  }

  /** A row that creating a key for `owner` makes. */
  predicate NewKeyRow(key: StreamKey, owner: Uuid, expiresAt: Option<Instant>, since: Clock, now: Clock) {
    && key.broadcasterId == owner && key.expiresAt == expiresAt
    && MatchesPattern(key.keyValue)
    && Between(since.app, key.createdAt, now.app)
  }

  predicate AuthCarries(pc: Pc, req: AuthRequest, since: Clock) {
    match pc
    case AuthStart(req', since') => req' == req && since' == since
    case AuthBegun(tx) => tx.req == req && tx.since == since
    case AuthLocked(tx, _, _) => tx.req == req && tx.since == since
    case AuthExpiring(tx, _, _, _) => tx.req == req && tx.since == since
    case AuthChecking(tx, _, _, _) => tx.req == req && tx.since == since
    case AuthTouching(tx, _, _, _) => tx.req == req && tx.since == since
    case AuthClosing(tx, _, _) => tx.req == req && tx.since == since
    case AuthCommitExpired(tx, _, _, _) => tx.req == req && tx.since == since
    case AuthCommitTouch(tx, _, _, _) => tx.req == req && tx.since == since
    case AuthDecided(req', _) => req' == req
    case AuthReturned(req', _) => req' == req
    case _ => false
  }

  predicate RevokeCarries(pc: Pc, id: Uuid, since: Clock, now: Clock) {
    match pc
    case RevStart(id') => id' == id
    case RevFound(id') => id' == id
    case RevKicking(id', _, _) => id' == id
    case RevEnding(id', _, _) => id' == id
    case RevStamping(id', _) => id' == id
    case RevWriting(id', _, at) => id' == id && Between(since.app, at, now.app)
    case RevReturned(id', _, _) => id' == id
    case RevRefused(id', _) => id' == id
    case _ => false
  }

  predicate ReadyCarries(t: Tables, used: set<Uuid>, pc: Pc, path: string, sourceType: string, sourceId: string,
                         since: Clock, now: Clock)
  {
    match pc
    case RdyStart(path', sourceType', sourceId') => path' == path && sourceType' == sourceType && sourceId' == sourceId
    case RdyFound(_, path', sourceType', sourceId') =>
      path' == path != "" && sourceType' == sourceType && sourceId' == sourceId
    case RdyInserting(row) =>
      ReadyRow(row, path, sourceType, sourceId, since, now) && row.status == StreamActive && row.endedAt == None
    case RdyReturned(created) =>
      created.Some? ==>
        && created.value in used
        && (created.value in t.streams ==> ReadyRow(t.streams[created.value], path, sourceType, sourceId, since, now))
    case _ => false
  }

  predicate CreateCarries(t: Tables, used: set<Uuid>, pc: Pc, owner: Uuid, expiresAt: Option<Instant>,
                          since: Clock, now: Clock)
  {
    match pc
    case NewStart(owner', expiresAt') => owner' == owner && expiresAt' == expiresAt
    case NewInserting(key) =>
      && NewKeyRow(key, owner, expiresAt, since, now)
      && key.status == KeyActive && key.revokedAt == None && key.lastUsedAt == None
    case NewReturned(created) =>
      created.Some? ==>
        && created.value in used
        && (created.value in t.keys ==> NewKeyRow(t.keys[created.value], owner, expiresAt, since, now))
    case _ => false
  }

  /** `pc` belongs to a handler that serves `call`, which arrived at `since`; once it has answered, what
      it said it made is what the call asked for, and what it said it removed is gone. */
  predicate Serving(call: Call, since: Clock, t: Tables, used: set<Uuid>, now: Clock, pc: Pc) {
    match call
    case CallAuthenticate(req) => AuthCarries(pc, req, since)
    case CallRevoke(id) => RevokeCarries(pc, id, since, now)
    case CallReady(path, sourceType, sourceId) => ReadyCarries(t, used, pc, path, sourceType, sourceId, since, now)
    case CallNotReady(path) => (pc.EndStart? || pc.EndReturned?) && pc.path == path
    case CallCreateKey(owner, expiresAt) => CreateCarries(t, used, pc, owner, expiresAt, since, now)
    case CallCreateBroadcaster(name) => pc.BroadcasterReturned? || (pc.JoinStart? && pc.name == name)
    case CallDeleteBroadcaster(b) =>
      || (pc.LeaveStart? && pc.broadcasterId == b)
      || (pc.BroadcasterReturned? && (pc.reply == Done ==> b in used && b !in t.broadcasters))
  }

  lemma ReadyServes(t: Tables, used: set<Uuid>, now: Clock, pc: Pc, c: Choice,
                    path: string, sourceType: string, sourceId: string, since: Clock)
    requires !Finished(pc) && ReadyCarries(t, used, pc, path, sourceType, sourceId, since, now) && since.NotAfter(now)
    ensures var m := Advance(t, now, pc, c);
            ReadyCarries(TablesAfter(t, m.effect), used + {c.newId}, m.next, path, sourceType, sourceId, since, now)
  {
  }

  lemma CreateServes(t: Tables, used: set<Uuid>, now: Clock, pc: Pc, c: Choice,
                     owner: Uuid, expiresAt: Option<Instant>, since: Clock)
    requires !Finished(pc) && CreateCarries(t, used, pc, owner, expiresAt, since, now) && since.NotAfter(now)
    requires |c.random| == ENTROPY
    ensures var m := Advance(t, now, pc, c);
            CreateCarries(TablesAfter(t, m.effect), used + {c.newId}, m.next, owner, expiresAt, since, now)
  {
    GeneratedMatchesPattern(c.random);
  }

  lemma OtherServes(call: Call, since: Clock, t: Tables, used: set<Uuid>, now: Clock, pc: Pc, c: Choice)
    requires !Finished(pc) && Serving(call, since, t, used, now, pc) && since.NotAfter(now) && IdsUsed(t, used)
    requires !call.CallReady? && !call.CallCreateKey?
    ensures var m := Advance(t, now, pc, c);
            Serving(call, since, TablesAfter(t, m.effect), used + {c.newId}, now, m.next)
  {
  }

  lemma ServingMove(call: Call, since: Clock, t: Tables, used: set<Uuid>, now: Clock, pc: Pc, c: Choice)
    requires !Finished(pc) && Serving(call, since, t, used, now, pc) && since.NotAfter(now)
    requires IdsUsed(t, used) && |c.random| == ENTROPY
    ensures var m := Advance(t, now, pc, c);
            Serving(call, since, TablesAfter(t, m.effect), used + {c.newId}, now, m.next)
  {
    match call
    case CallReady(path, sourceType, sourceId) =>
      ReadyServes(t, used, now, pc, c, path, sourceType, sourceId, since);
    case CallCreateKey(owner, expiresAt) =>
      CreateServes(t, used, now, pc, c, owner, expiresAt, since);
    case _ =>
      OtherServes(call, since, t, used, now, pc, c);
  }

  /** What was made stays as it was made, and what was removed stays away, under any evolution. */
  lemma ServingStable(call: Call, since: Clock, t: Tables, used: set<Uuid>, now: Clock,
                      u: Tables, used': set<Uuid>, now': Clock, pc: Pc)
    requires Serving(call, since, t, used, now, pc)
    requires TablesEvolve(t, used, u) && used <= used' && now.NotAfter(now')
    ensures Serving(call, since, u, used', now', pc)
  {
  }

  // ---------------------------------------------------------------- the contract of each step

  /** The verdict an authentication has reached, if it has. */
  function VerdictOf(pc: Pc): Option<Verdict> {
    match pc
    case AuthClosing(_, _, verdict) => Some(verdict)
    case AuthDecided(_, verdict) => Some(verdict)
    case AuthReturned(_, answer) => answer
    case _ => None
  }

  /** Answered without a look at the database. */
  predicate NeedsNoDatabase(req: AuthRequest) {
    req.action != "publish" || Presents(req, "")
  }

  predicate Committing(pc: Pc) {
    pc.AuthCommitExpired? || pc.AuthCommitTouch?
  }

  /** Undecided, nothing is changed, and only an error ends it, though not one that loses the answer to
      a COMMIT: that has taken effect.  What needs no database is decided at once.  It is decided by the
      verdict that the tables warrant at that moment, by a clock reading since the request came, and
      exactly what that verdict records is recorded.  Decided, it is answered so, unless an error loses
      the answer. */
  ghost predicate AuthContract(req: AuthRequest, since: Clock, t: Tables, now: Clock, outcome: Outcome,
                               p: Pc, q: Pc, u: Tables)
  {
    match VerdictOf(p)
    case Some(v) =>
      && u == t
      && (VerdictOf(q) == Some(v) || (q.AuthReturned? && outcome != Fine))
    case None =>
      match VerdictOf(q)
      case None =>
        && u == t
        && (Finished(q) ==> outcome != Fine)
        && (Committing(p) ==> outcome == Refused)
        && !(p.AuthStart? && NeedsNoDatabase(req))
      case Some(v) =>
        exists reading: Instant, txTime: Instant ::
          && Between(since.app, reading, now.app) && Between(since.db, txTime, now.db)
          && Warranted(t, req, reading, v) && Recorded(t, u, req, v, txTime)
  }

  /** `u` is `t` with every active stream that is row `sid`, or is at `path`, ended at `at`. */
  ghost predicate WithEnded(t: Tables, u: Tables, sid: Option<Uuid>, path: Option<string>, at: Instant) {
    && u.broadcasters == t.broadcasters && u.keys == t.keys && u.streams.Keys == t.streams.Keys
    && forall x :: x in t.streams ==>
         u.streams[x] == if t.streams[x].status == StreamActive && (sid == Some(x) || path == Some(t.streams[x].path))
                         then t.streams[x].(status := StreamEnded, endedAt := Some(at))
                         else t.streams[x]
  }

  ghost predicate RevokeContract(id: Uuid, t: Tables, now: Clock, outcome: Outcome, p: Pc, q: Pc, u: Tables) {
    match p
    case RevStart(_) =>
      && u == t
      && q == if outcome != Fine then RevRefused(id, DbError)
              else if id !in t.keys then RevRefused(id, NotFound)
              else if t.keys[id].status != KeyActive then RevRefused(id, InvalidStatus)
              else RevFound(id)
    case RevFound(_) =>
      && u == t
      && if outcome != Fine then q == RevRefused(id, DbError)
         else if exists sid :: sid in t.streams && StreamsOn(t.streams[sid], id) then
           q.RevKicking? && q.sid in t.streams && StreamsOn(t.streams[q.sid], id)
         else q.RevStamping? && q.look.stream == None && !q.look.endError
    case RevKicking(_, sid, _) => u == t && q.RevEnding? && q.sid == sid
    case RevEnding(_, sid, _) =>
      && q.RevStamping? && q.look.stream == Some(sid) && (q.look.endError <==> outcome != Fine)
      && if outcome == Refused then u == t else WithEnded(t, u, Some(sid), None, now.db)
    case RevStamping(_, look) => u == t && q.RevWriting? && q.look == look && q.at == now.app
    case RevWriting(_, look, at) =>
      && q == RevReturned(id, look, if outcome != Fine then DbError else if id in t.keys then Done else NotFound)
      && if outcome == Refused || id !in t.keys then u == t
         else u == t.(keys := t.keys[id := t.keys[id].(status := KeyRevoked, revokedAt := Some(at))])
    case _ => false
  }

  ghost predicate ReadyContract(path: string, sourceType: string, sourceId: string, t: Tables, now: Clock, c: Choice,
                                p: Pc, q: Pc, u: Tables)
  {
    match p
    case RdyStart(_, _, _) =>
      && u == t
      && if c.outcome == Fine && path != "" && exists k :: k in t.keys && t.keys[k].keyValue == path then
           q.RdyFound? && q.keyId in t.keys && t.keys[q.keyId].keyValue == path
         else q == RdyReturned(None)
    case RdyFound(keyId, _, _, _) =>
      && u == t
      && q == RdyInserting(Stream(keyId, path, StreamActive, now.app, None, TextOrNone(sourceType), TextOrNone(sourceId)))
    case RdyInserting(row) =>
      var admitted := && row.keyId in t.keys
                      && |sourceType| <= MAX_SOURCE_TYPE && |sourceId| <= MAX_SOURCE_ID
                      && forall sid :: sid in t.streams ==> !StreamsOn(t.streams[sid], row.keyId);
      && q == RdyReturned(if admitted && c.outcome == Fine then Some(c.newId) else None)
      && c.newId !in t.streams
      && u == if admitted && c.outcome != Refused then t.(streams := t.streams[c.newId := row]) else t
    case _ => false
  }

  ghost predicate NotReadyContract(path: string, t: Tables, now: Clock, outcome: Outcome, q: Pc, u: Tables) {
    if path == "" then u == t && q == EndReturned(path, BadRequest)
    else
      && (if outcome == Refused then u == t else WithEnded(t, u, None, Some(path), now.db))
      && q == EndReturned(path,
           if outcome != Fine then DbError
           else if exists x :: x in t.streams && t.streams[x].path == path && t.streams[x].status == StreamActive then Done
           else NotFound)
  }

  ghost predicate CreateContract(owner: Uuid, expiresAt: Option<Instant>, t: Tables, now: Clock, c: Choice,
                                 p: Pc, q: Pc, u: Tables)
  {
    match p
    case NewStart(_, _) =>
      && u == t
      && q == if c.outcome != Fine then NewReturned(None)
              else NewInserting(StreamKey("sk_" + B.Encode(c.random), owner, KeyActive, now.app, expiresAt, None, None))
    case NewInserting(key) =>
      var admitted := owner in t.broadcasters && forall k :: k in t.keys ==> t.keys[k].keyValue != key.keyValue;
      && q == NewReturned(if admitted && c.outcome == Fine then Some(c.newId) else None)
      && c.newId !in t.keys
      && u == if admitted && c.outcome != Refused then t.(keys := t.keys[c.newId := key]) else t
    case _ => false
  }

  ghost predicate JoinContract(name: string, t: Tables, c: Choice, q: Pc, u: Tables) {
    var admitted := |name| <= MAX_DISPLAY_NAME;
    && q == BroadcasterReturned(if admitted && c.outcome == Fine then Done else DbError)
    && c.newId !in t.broadcasters
    && u == if admitted && c.outcome != Refused
            then t.(broadcasters := t.broadcasters[c.newId := Broadcaster(name)]) else t
  }

  /** `u` is `t` without broadcaster `b`, the keys it owns, and the streams of those keys. */
  ghost predicate Without(t: Tables, u: Tables, b: Uuid) {
    && u.broadcasters == t.broadcasters - {b}
    && (forall k :: k in u.keys <==> k in t.keys && t.keys[k].broadcasterId != b)
    && (forall k :: k in u.keys ==> u.keys[k] == t.keys[k])
    && (forall x :: x in u.streams <==>
          x in t.streams && t.streams[x].keyId in t.keys && t.keys[t.streams[x].keyId].broadcasterId != b)
    && (forall x :: x in u.streams ==> u.streams[x] == t.streams[x])
  }

  ghost predicate LeaveContract(b: Uuid, t: Tables, outcome: Outcome, q: Pc, u: Tables) {
    && q == BroadcasterReturned(if outcome != Fine then DbError else if b in t.broadcasters then Done else NotFound)
    && if outcome != Refused && b in t.broadcasters then Without(t, u, b) else u == t
  }

  ghost predicate Contract(call: Call, since: Clock, t: Tables, now: Clock, c: Choice, p: Pc, q: Pc, u: Tables) {
    match call
    case CallAuthenticate(req) => AuthContract(req, since, t, now, c.outcome, p, q, u)
    case CallRevoke(id) => RevokeContract(id, t, now, c.outcome, p, q, u)
    case CallReady(path, sourceType, sourceId) => ReadyContract(path, sourceType, sourceId, t, now, c, p, q, u)
    case CallNotReady(path) => NotReadyContract(path, t, now, c.outcome, q, u)
    case CallCreateKey(owner, expiresAt) => CreateContract(owner, expiresAt, t, now, c, p, q, u)
    case CallCreateBroadcaster(name) => JoinContract(name, t, c, q, u)
    case CallDeleteBroadcaster(b) => LeaveContract(b, t, c.outcome, q, u)
  }

  // ---------------------------------------------------------------- and that every step keeps it

  lemma SeenByItsVerdict(pc: Pc, req: AuthRequest, since: Clock)
    requires AuthCarries(pc, req, since)
    ensures SeenAs(pc) == if pc.AuthReturned? then Answered(req, VerdictOf(pc))
                          else if VerdictOf(pc).Some? then Decided(req, VerdictOf(pc).value)
                          else Waiting(req, since)
  {
  }

  lemma DecisionIsWarranted(req: AuthRequest, since: Clock, t: Tables, now: Clock, v: Verdict, u: Tables)
    requires Constraints(t) && Decision(Materialising, t, now, req, since, v, u)
    ensures exists reading: Instant, txTime: Instant ::
              && Between(since.app, reading, now.app) && Between(since.db, txTime, now.db)
              && Warranted(t, req, reading, v) && Recorded(t, u, req, v, txTime)
  {
    var reading: Instant, txTime: Instant :| DecisionAt(Materialising, t, now, req, since, v, u, reading, txTime);
    JudgeAndSettle(t, req, reading, txTime, v, u);
    assert Between(since.app, reading, now.app) && Between(since.db, txTime, now.db);
  }

  lemma MoveKeepsContract(req: AuthRequest, since: Clock, t: Tables, now: Clock, outcome: Outcome, p: Pc, q: Pc, u: Tables)
    requires Constraints(t) && AuthCarries(p, req, since) && AuthCarries(q, req, since) && !Finished(p)
    requires || (SeenAs(q) == SeenAs(p) && u == t)
             || AuthMove(Materialising, t, now, outcome, SeenAs(p), SeenAs(q), u)
    requires (Committing(p) && outcome != Refused) || (p.AuthStart? && NeedsNoDatabase(req)) ==> VerdictOf(q).Some?
    ensures AuthContract(req, since, t, now, outcome, p, q, u)
  {
    SeenByItsVerdict(p, req, since);
    SeenByItsVerdict(q, req, since);
    if VerdictOf(p) == None && VerdictOf(q).Some? {
      DecisionIsWarranted(req, since, t, now, VerdictOf(q).value, u);
    }
  }

  lemma AuthServes(t: Tables, now: Clock, pc: Pc, c: Choice, req: AuthRequest, since: Clock)
    requires !Finished(pc) && AuthCarries(pc, req, since)
    ensures AuthCarries(Advance(t, now, pc, c).next, req, since)
    ensures (Committing(pc) && c.outcome != Refused) || (pc.AuthStart? && NeedsNoDatabase(req)) ==>
              VerdictOf(Advance(t, now, pc, c).next).Some?
  {
    PresentsOnly(req, "");
  }

  lemma AuthKeepsContract(req: AuthRequest, since: Clock, t: Tables, used: set<Uuid>, now: Clock, pc: Pc, c: Choice)
    requires Constraints(t) && PcOk(t, now, used, pc) && !Finished(pc) && AuthCarries(pc, req, since)
    ensures var m := Advance(t, now, pc, c);
            AuthContract(req, since, t, now, c.outcome, pc, m.next, TablesAfter(t, m.effect))
  {
    var m := Advance(t, now, pc, c);
    AuthStepRefines(t, now, used, pc, c);
    AuthServes(t, now, pc, c, req, since);
    MoveKeepsContract(req, since, t, now, c.outcome, pc, m.next, TablesAfter(t, m.effect));
  }

  lemma RevokeKeepsContract(id: Uuid, since: Clock, t: Tables, now: Clock, pc: Pc, c: Choice)
    requires !Finished(pc) && RevokeCarries(pc, id, since, now)
    ensures var m := Advance(t, now, pc, c);
            RevokeContract(id, t, now, c.outcome, pc, m.next, TablesAfter(t, m.effect))
  {
    var m := Advance(t, now, pc, c);
    if pc.RevFound? {
      InUseMeans(t, id);
    }
  }

  lemma LookupKeepsContract(t: Tables, now: Clock, c: Choice, path: string, sourceType: string, sourceId: string)
    ensures var pc := RdyStart(path, sourceType, sourceId);
            var m := Advance(t, now, pc, c);
            ReadyContract(path, sourceType, sourceId, t, now, c, pc, m.next, TablesAfter(t, m.effect))
  {
  }

  lemma InsertKeepsContract(t: Tables, used: set<Uuid>, now: Clock, row: Stream, c: Choice,
                            path: string, sourceType: string, sourceId: string, since: Clock)
    requires Widths(t) && PathIs(t, used, row.keyId, row.path) && c.newId !in t.streams
    requires ReadyCarries(t, used, RdyInserting(row), path, sourceType, sourceId, since, now)
    ensures var m := Advance(t, now, RdyInserting(row), c);
            ReadyContract(path, sourceType, sourceId, t, now, c, RdyInserting(row), m.next, TablesAfter(t, m.effect))
  {
    InUseMeans(t, row.keyId);
    assert row.keyId in t.keys ==> |row.path| == |t.keys[row.keyId].keyValue|;
  }

  lemma ReadyKeepsContract(t: Tables, used: set<Uuid>, now: Clock, pc: Pc, c: Choice,
                           path: string, sourceType: string, sourceId: string, since: Clock)
    requires Widths(t) && c.newId !in t.streams && (pc.RdyInserting? ==> PathIs(t, used, pc.row.keyId, pc.row.path))
    requires !Finished(pc) && ReadyCarries(t, used, pc, path, sourceType, sourceId, since, now)
    ensures var m := Advance(t, now, pc, c);
            ReadyContract(path, sourceType, sourceId, t, now, c, pc, m.next, TablesAfter(t, m.effect))
  {
    match pc
    case RdyStart(_, _, _) => LookupKeepsContract(t, now, c, path, sourceType, sourceId);
    case RdyFound(_, _, _, _) =>
    case RdyInserting(row) => InsertKeepsContract(t, used, now, row, c, path, sourceType, sourceId, since);
  }

  lemma NotReadyKeepsContract(path: string, t: Tables, now: Clock, c: Choice)
    ensures var m := Advance(t, now, EndStart(path), c);
            NotReadyContract(path, t, now, c.outcome, m.next, TablesAfter(t, m.effect))
  {
    assert forall x :: LiveAt(t, x, path) <==> x in t.streams && t.streams[x].path == path && t.streams[x].status == StreamActive;
  }

  lemma CreateKeepsContract(t: Tables, used: set<Uuid>, now: Clock, pc: Pc, c: Choice,
                            owner: Uuid, expiresAt: Option<Instant>, since: Clock)
    requires IdsUsed(t, used) && c.newId !in used
    requires !Finished(pc) && CreateCarries(t, used, pc, owner, expiresAt, since, now)
    ensures var m := Advance(t, now, pc, c);
            CreateContract(owner, expiresAt, t, now, c, pc, m.next, TablesAfter(t, m.effect))
  {
  }

  lemma JoinKeepsContract(name: string, t: Tables, used: set<Uuid>, now: Clock, c: Choice)
    requires IdsUsed(t, used) && c.newId !in used
    ensures var m := Advance(t, now, JoinStart(name), c);
            JoinContract(name, t, c, m.next, TablesAfter(t, m.effect))
  {
  }

  lemma LeaveKeepsContract(b: Uuid, t: Tables, now: Clock, c: Choice)
    requires ForeignKeys(t)
    ensures var m := Advance(t, now, LeaveStart(b), c);
            LeaveContract(b, t, c.outcome, m.next, TablesAfter(t, m.effect))
  {
  }

  lemma OtherKeepsContract(call: Call, since: Clock, t: Tables, used: set<Uuid>, now: Clock, pc: Pc, c: Choice)
    requires ForeignKeys(t) && IdsUsed(t, used) && c.newId !in used
    requires !Finished(pc) && Serving(call, since, t, used, now, pc)
    requires !call.CallAuthenticate? && !call.CallReady?
    ensures var m := Advance(t, now, pc, c);
            Contract(call, since, t, now, c, pc, m.next, TablesAfter(t, m.effect))
  {
    match call
    case CallRevoke(id) => RevokeKeepsContract(id, since, t, now, pc, c);
    case CallNotReady(path) => NotReadyKeepsContract(path, t, now, c);
    case CallCreateKey(owner, expiresAt) => CreateKeepsContract(t, used, now, pc, c, owner, expiresAt, since);
    case CallCreateBroadcaster(name) => JoinKeepsContract(name, t, used, now, c);
    case CallDeleteBroadcaster(b) => LeaveKeepsContract(b, t, now, c);
  }

  lemma KeepsContract(call: Call, since: Clock, t: Tables, used: set<Uuid>, now: Clock, pc: Pc, c: Choice)
    requires Constraints(t) && PcOk(t, now, used, pc) && IdsUsed(t, used) && c.newId !in used
    requires !Finished(pc) && Serving(call, since, t, used, now, pc)
    ensures var m := Advance(t, now, pc, c);
            Contract(call, since, t, now, c, pc, m.next, TablesAfter(t, m.effect))
  {
    match call
    case CallAuthenticate(req) => AuthKeepsContract(req, since, t, used, now, pc, c);
    case CallReady(path, sourceType, sourceId) =>
      ReadyKeepsContract(t, used, now, pc, c, path, sourceType, sourceId, since);
    case _ => OtherKeepsContract(call, since, t, used, now, pc, c);
  }

  // ---------------------------------------------------------------- whole runs

  /** The event is no step of handler `h`, or one that keeps the contract of `call`. */
  ghost predicate EventConforms(call: Call, since: Clock, s: System, e: Event, h: Handler)
    requires Enabled(s, e) && h in s.procs
  {
    e.Step? && e.h == h ==>
      Contract(call, since, s.db, s.clock, e.choice, s.procs[h], Next(s, e).procs[h], Next(s, e).db)
  }

  /** Every step that handler `h` takes in the run keeps the contract of `call`. */
  ghost predicate Conforms(call: Call, since: Clock, s: System, es: seq<Event>, h: Handler)
    requires Feasible(s, es) && h in s.procs
    decreases |es|
  {
    es == [] || (EventConforms(call, since, s, es[0], h) && Conforms(call, since, Next(s, es[0]), es[1..], h))
  }

  ghost predicate Serves(s: System, h: Handler, call: Call, since: Clock) {
    && h in s.procs && since.NotAfter(s.clock)
    && Serving(call, since, s.db, s.used, s.clock, s.procs[h])
  }

  lemma ServesOn(s: System, e: Event, h: Handler, call: Call, since: Clock)
    requires Inv(s) && Enabled(s, e) && Serves(s, h, call, since)
    ensures Serves(Next(s, e), h, call, since)
  {
    var s' := Next(s, e);
    if e.Step? && e.h == h {
      ServingMove(call, since, s.db, s.used, s.clock, s.procs[h], e.choice);
    } else {
      NextKeepsInv(s, e);
      ServingStable(call, since, s.db, s.used, s.clock, s'.db, s'.used, s'.clock, s.procs[h]);
    }
  }

  lemma EventKeepsContract(s: System, e: Event, h: Handler, call: Call, since: Clock)
    requires Inv(s) && Enabled(s, e) && Serves(s, h, call, since)
    ensures EventConforms(call, since, s, e, h)
  {
    if e.Step? && e.h == h {
      assert PcOk(s.db, s.clock, s.used, s.procs[h]);
      KeepsContract(call, since, s.db, s.used, s.clock, s.procs[h], e.choice);
    }
  }

  lemma {:induction false} ServingConforms(s: System, es: seq<Event>, h: Handler, call: Call, since: Clock)
    requires Inv(s) && Feasible(s, es) && Serves(s, h, call, since)
    ensures Conforms(call, since, s, es, h) && Serves(After(s, es), h, call, since)
    decreases |es|
  {
    if es != [] {
      EventKeepsContract(s, es[0], h, call, since);
      ServesOn(s, es[0], h, call, since);
      NextKeepsInv(s, es[0]);
      ServingConforms(Next(s, es[0]), es[1..], h, call, since);
    }
  }

  /** A call is given to a handler that serves it. */
  lemma StartServes(call: Call, t: Tables, used: set<Uuid>, now: Clock)
    ensures Serving(call, now, t, used, now, Start(call, now))
  {
  }

  /** From its arrival on, in every run of any interleaving, each step of a call's handler keeps the
      contract of that call, with the call's own arguments. */
  lemma EveryCallConforms(s: System, h: Handler, call: Call, es: seq<Event>)
    requires Inv(s) && Enabled(s, Arrive(h, call)) && Feasible(Next(s, Arrive(h, call)), es)
    ensures Conforms(call, s.clock, Next(s, Arrive(h, call)), es, h)
    ensures Serves(After(Next(s, Arrive(h, call)), es), h, call, s.clock)
  {
    NextKeepsInv(s, Arrive(h, call));
    StartServes(call, s.db, s.used, s.clock);
    ServingConforms(Next(s, Arrive(h, call)), es, h, call, s.clock);
  }

  /** The state that a call and what follows lead to. */
  ghost function Later(s: System, h: Handler, call: Call, es: seq<Event>): System
    requires Enabled(s, Arrive(h, call)) && Feasible(Next(s, Arrive(h, call)), es)
  {
    After(Next(s, Arrive(h, call)), es)
  }

  lemma InvLater(s: System, h: Handler, call: Call, es: seq<Event>)
    requires Inv(s) && Enabled(s, Arrive(h, call)) && Feasible(Next(s, Arrive(h, call)), es)
    ensures var s' := Later(s, h, call, es);
            Inv(s') && Serves(s', h, call, s.clock) && PcOk(s'.db, s'.clock, s'.used, s'.procs[h])
  {
    EveryCallConforms(s, h, call, es);
    NextKeepsInv(s, Arrive(h, call));
    RunKeepsInv(Next(s, Arrive(h, call)), es);
  }

  /** Creating a key, under any interleaving: the key it returns, while it exists, has the owner and
      the expiry time asked for, was created during the call, and has a text of the documented form. */
  lemma CreatedAsAsked(s: System, h: Handler, owner: Uuid, expiresAt: Option<Instant>, es: seq<Event>, id: Uuid)
    requires var call := CallCreateKey(owner, expiresAt);
             && Inv(s) && Enabled(s, Arrive(h, call)) && Feasible(Next(s, Arrive(h, call)), es)
             && h in Later(s, h, call, es).procs && Later(s, h, call, es).procs[h] == NewReturned(Some(id))
    ensures var s' := Later(s, h, CallCreateKey(owner, expiresAt), es);
            id in s'.db.keys ==>
              && s'.db.keys[id].broadcasterId == owner
              && s'.db.keys[id].expiresAt == expiresAt
              && s.clock.app <= s'.db.keys[id].createdAt <= s'.clock.app
              && MatchesPattern(s'.db.keys[id].keyValue)
  {
    InvLater(s, h, CallCreateKey(owner, expiresAt), es);
  }

  /** A ready webhook, under any interleaving: the stream it created, while it exists, is on the key
      whose text is the webhook's path, with the webhook's source, and started during the call. */
  lemma StartedAsAsked(s: System, h: Handler, path: string, sourceType: string, sourceId: string, es: seq<Event>, id: Uuid)
    requires var call := CallReady(path, sourceType, sourceId);
             && Inv(s) && Enabled(s, Arrive(h, call)) && Feasible(Next(s, Arrive(h, call)), es)
             && h in Later(s, h, call, es).procs && Later(s, h, call, es).procs[h] == RdyReturned(Some(id))
    ensures var s' := Later(s, h, CallReady(path, sourceType, sourceId), es);
            id in s'.db.streams ==>
              var row := s'.db.streams[id];
              && row.path == path
              && row.sourceType == TextOrNone(sourceType) && row.sourceId == TextOrNone(sourceId)
              && s.clock.app <= row.startedAt <= s'.clock.app
              && row.keyId in s'.db.keys && s'.db.keys[row.keyId].keyValue == path
  {
    InvLater(s, h, CallReady(path, sourceType, sourceId), es);
  }

  /** A revocation that reports success has revoked the key it was asked to, or the key is gone. */
  lemma RevokedAsAsked(s: System, h: Handler, id: Uuid, es: seq<Event>)
    requires Inv(s) && Enabled(s, Arrive(h, CallRevoke(id))) && Feasible(Next(s, Arrive(h, CallRevoke(id))), es)
    requires var s' := Later(s, h, CallRevoke(id), es);
             h in s'.procs && s'.procs[h].RevReturned? && s'.procs[h].reply == Done
    ensures var s' := Later(s, h, CallRevoke(id), es);
            id in s'.db.keys ==> s'.db.keys[id].status == KeyRevoked
  {
    InvLater(s, h, CallRevoke(id), es);
  }

  /** A deletion that reports success has removed the broadcaster it was asked to, with all its keys. */
  lemma DeletedAsAsked(s: System, h: Handler, b: Uuid, es: seq<Event>)
    requires Inv(s) && Enabled(s, Arrive(h, CallDeleteBroadcaster(b)))
    requires Feasible(Next(s, Arrive(h, CallDeleteBroadcaster(b))), es)
    requires var s' := Later(s, h, CallDeleteBroadcaster(b), es);
             h in s'.procs && s'.procs[h] == BroadcasterReturned(Done)
    ensures var s' := Later(s, h, CallDeleteBroadcaster(b), es);
            b !in s'.db.broadcasters && forall k :: k in s'.db.keys ==> s'.db.keys[k].broadcasterId != b
  {
    InvLater(s, h, CallDeleteBroadcaster(b), es);
  }

  /** Time brings every expiry about: without anything else happening, a key with an expiry time comes
      to be refused as expired, unless it is revoked. */
  lemma ExpiryComes(s: System, k: Uuid, req: AuthRequest) returns (es: seq<Event>)
    requires Inv(s) && k in s.db.keys && s.db.keys[k].expiresAt.Some? && s.db.keys[k].status != KeyRevoked
    requires req.action == "publish" && Presents(req, s.db.keys[k].keyValue) && s.db.keys[k].keyValue != ""
    ensures Feasible(s, es) && After(s, es).db == s.db && After(s, es).procs == s.procs
    ensures Judge(s.db, req, After(s, es).clock.app) == ExpiredKey
  {
    var expiry, now := s.db.keys[k].expiresAt.value, s.clock.app;
    var tick := Tick(Clock(if now <= expiry then expiry + 1 else now, s.clock.db));
    RunStarts(s, tick, []);
    es := [tick] + [];
    PresentsOnly(req, "");
    PresentsOnly(req, s.db.keys[k].keyValue);
    KeyByValueIs(s.db, k);
  }

  // ---------------------------------------------------------------- errors

  /** The handler has answered, or has noted, that a database call failed. */
  predicate Erred(pc: Pc) {
    match pc
    case AuthReturned(_, answer) => answer == None
    case RevStamping(_, look) => look.endError
    case RevWriting(_, look, _) => look.endError
    case RevReturned(_, look, reply) => look.endError || reply == DbError
    case RevRefused(_, reply) => reply == DbError
    case EndReturned(_, reply) => reply == DbError
    case _ => false
  }

  /** One of handler `h`'s own steps in the run went wrong. */
  predicate Troubled(es: seq<Event>, h: Handler) {
    exists e :: e in es && e.Step? && e.h == h && e.choice.outcome != Fine
  }

  lemma ErrorNeedsTrouble(t: Tables, now: Clock, pc: Pc, c: Choice)
    requires !Finished(pc) && !Erred(pc) && c.outcome == Fine
    ensures !Erred(Advance(t, now, pc, c).next)
  {
  }

  /** Over every interleaving, a handler answers with an error only after a step of its own that went
      wrong: nothing that the others do, and no passing of time, makes a call fail. */
  lemma {:induction false} ErrorsNeedTrouble(s: System, es: seq<Event>, h: Handler)
    requires Feasible(s, es) && h in s.procs && !Erred(s.procs[h])
    ensures h in After(s, es).procs
    ensures Erred(After(s, es).procs[h]) ==> Troubled(es, h)
    decreases |es|
  {
    if es != [] {
      var e, s1 := es[0], Next(s, es[0]);
      assert e in es;
      if e.Step? && e.h == h && e.choice.outcome == Fine {
        ErrorNeedsTrouble(s.db, s.clock, s.procs[h], e.choice);
      }
      if !Erred(s1.procs[h]) {
        ErrorsNeedTrouble(s1, es[1..], h);
        assert forall x :: x in es[1..] ==> x in es;
      } else {
        assert Troubled(es, h);
        Stays(s1, es[1..], h);
      }
    }
  }

  lemma {:induction false} Stays(s: System, es: seq<Event>, h: Handler)
    requires Feasible(s, es) && h in s.procs
    ensures h in After(s, es).procs
    decreases |es|
  {
    if es != [] {
      Stays(Next(s, es[0]), es[1..], h);
    }
  }

  /** An interleaved Authenticate whose own steps all go well never answers with an error: once it has
      answered, it has given a verdict. */
  lemma FineStepsGiveAVerdict(s: System, es: seq<Event>, h: Handler)
    requires Feasible(s, es) && h in s.procs && Authenticating(s.procs[h]) && !Finished(s.procs[h])
    requires forall e :: e in es && e.Step? && e.h == h ==> e.choice.outcome == Fine
    ensures h in After(s, es).procs && Authenticating(After(s, es).procs[h])
    ensures Finished(After(s, es).procs[h]) ==> After(s, es).procs[h].answer.Some?
  {
    ErrorsNeedTrouble(s, es, h);
    StaysAuthenticating(s, es, h);
  }

  lemma {:induction false} StaysAuthenticating(s: System, es: seq<Event>, h: Handler)
    requires Feasible(s, es) && h in s.procs && Authenticating(s.procs[h])
    ensures h in After(s, es).procs && Authenticating(After(s, es).procs[h])
    decreases |es|
  {
    if es != [] {
      StaysAuthenticating(Next(s, es[0]), es[1..], h);
    }
  }
}
