/** Any number of request handlers interleaved statement by statement over the shared tables.

    A handler is a program counter with its local variables.  One step of a handler is one SQL
    statement, one BEGIN or COMMIT, or one piece of local work that reads the application's clock.
    Statements follow PostgreSQL's READ COMMITTED level (PostgreSQL documentation, sections 13.2.1
    and 13.3.2): each sees the latest committed rows; SELECT ... FOR UPDATE takes the key row's
    lock until the transaction ends; updating or deleting a key row, and inserting a stream that
    refers to it, wait for that lock; a transaction's own writes show only after COMMIT.

    Every statement may fail with a database error before it takes effect, or take effect and
    lose its answer. */
module Protocol {
  import opened Domain
  import opened Schema
  import opened Statements
  import opened KeyText
  import opened Verdicts
  import B = Base64Url

  type Handler = nat

  /** Go's time.Now() and PostgreSQL's NOW() are different clocks. */
  datatype Clock = Clock(app: Instant, db: Instant) {
    predicate NotAfter(later: Clock) {
      app <= later.app && db <= later.db
    }
  }

  /** An open authentication transaction: its request, when the request arrived, and the time of
      BEGIN, which is what NOW() returns until COMMIT. */
  datatype Tx = Tx(req: AuthRequest, since: Clock, begunAt: Instant)

  /** What Revoke learnt on its way: the active stream it read, whether ending it hit a database
      error, and (history only) which stream rows existed at that read. */
  datatype Sighting = Sighting(stream: Option<Uuid>, endError: bool, seen: set<Uuid>)

  datatype Reply = Done | BadRequest | NotFound | InvalidStatus | DbError

  datatype Pc =
    // AuthService.Authenticate
    | AuthStart(req: AuthRequest, since: Clock)
    | AuthBegun(tx: Tx)
    | AuthLocked(tx: Tx, k: Uuid, key: StreamKey)
    | AuthExpiring(tx: Tx, k: Uuid, key: StreamKey, reading: Instant)
    | AuthChecking(tx: Tx, k: Uuid, key: StreamKey, reading: Instant)
    | AuthTouching(tx: Tx, k: Uuid, key: StreamKey, reading: Instant)
    | AuthClosing(tx: Tx, held: Option<Uuid>, verdict: Verdict)
    | AuthCommitExpired(tx: Tx, k: Uuid, key: StreamKey, reading: Instant)
    | AuthCommitTouch(tx: Tx, k: Uuid, key: StreamKey, reading: Instant)
    | AuthDecided(req: AuthRequest, verdict: Verdict)
    | AuthReturned(req: AuthRequest, answer: Option<Verdict>)
    // StreamKeyService.Revoke
    | RevStart(id: Uuid)
    | RevFound(id: Uuid)
    | RevKicking(id: Uuid, sid: Uuid, seen: set<Uuid>)
    | RevEnding(id: Uuid, sid: Uuid, seen: set<Uuid>)
    | RevStamping(id: Uuid, look: Sighting)
    | RevWriting(id: Uuid, look: Sighting, at: Instant)
    | RevReturned(id: Uuid, look: Sighting, reply: Reply)
    | RevRefused(id: Uuid, reply: Reply)
    // WebhookHandler.handleReady
    | RdyStart(path: string, sourceType: string, sourceId: string)
    | RdyFound(keyId: Uuid, path: string, sourceType: string, sourceId: string)
    | RdyInserting(row: Stream)
    | RdyReturned(created: Option<Uuid>)
    // WebhookHandler.handleNotReady
    | EndStart(path: string)
    | EndReturned(path: string, reply: Reply)
    // StreamKeyService.Create
    | NewStart(broadcasterId: Uuid, expiresAt: Option<Instant>)
    | NewInserting(key: StreamKey)
    | NewReturned(created: Option<Uuid>)
    // BroadcasterService.Create and Delete
    | JoinStart(name: string)
    | LeaveStart(broadcasterId: Uuid)
    | BroadcasterReturned(reply: Reply)

  datatype Outcome = Fine | Refused | Lost

  /** What is not determined by the state: how the statement fares, and the identifier and the
      random bytes the handler draws. */
  datatype Choice = Choice(outcome: Outcome, newId: Uuid, random: seq<B.byte>)

  datatype Effect =
    | Nothing
    | Write(statement: Statement)
    | TakeLock(key: Uuid)
    | EndTx(held: Option<Uuid>, write: Option<Statement>)

  datatype Move = Move(next: Pc, effect: Effect)

  predicate Finished(pc: Pc) {
    || pc.AuthReturned? || pc.RevReturned? || pc.RevRefused? || pc.RdyReturned?
    || pc.EndReturned? || pc.NewReturned? || pc.BroadcasterReturned?
  }

  predicate Authenticating(pc: Pc) {
    || pc.AuthStart? || pc.AuthBegun? || pc.AuthLocked? || pc.AuthExpiring? || pc.AuthChecking?
    || pc.AuthTouching? || pc.AuthClosing? || pc.AuthCommitExpired? || pc.AuthCommitTouch?
    || pc.AuthDecided? || pc.AuthReturned?
  }

  function Go(next: Pc): Move {
    Move(next, Nothing)
  }

  function Rollback(tx: Tx, held: Option<Uuid>): Move {
    Move(AuthReturned(tx.req, None), EndTx(held, None))
  }

  /** An autocommitted statement: `ok` or `none` says where its answer leads, `err` where a
      database error does. */
  ghost function Exec(t: Tables, c: Choice, st: Statement, ok: Pc, none: Pc, err: Pc): Move {
    match c.outcome
    case Fine => Move(if Succeeds(t, st) then ok else none, Write(st))
    case Refused => Move(err, Nothing)
    case Lost => Move(err, Write(st))
  }

  function NonEmpty(s: string): Option<string> {
    if s == "" then None else Some(s)
  }

  /** One step of a handler, seen from the handler. */
  ghost function Advance(t: Tables, now: Clock, pc: Pc, c: Choice): Move
    requires !Finished(pc)
  {
    var fine := c.outcome == Fine;
    match pc
    case AuthStart(req, since) =>
      if EarlyVerdict(req).Some? then Go(AuthReturned(req, EarlyVerdict(req)))
      else if fine then Go(AuthBegun(Tx(req, since, now.db)))
      else Go(AuthReturned(req, None))
    case AuthBegun(tx) =>
      if !fine then Rollback(tx, None) else
      (match KeyByValue(t, Presented(tx.req))
       case None => Go(AuthClosing(tx, None, UnknownKey))
       case Some(k) => Move(AuthLocked(tx, k, t.keys[k]), TakeLock(k)))
    case AuthLocked(tx, k, key) =>
      if key.status == KeyRevoked then Go(AuthClosing(tx, Some(k), RevokedKey))
      else if key.status == KeyExpired then Go(AuthClosing(tx, Some(k), ExpiredKey))
      else if key.PastExpiry(now.app) then Go(AuthExpiring(tx, k, key, now.app))
      else Go(AuthChecking(tx, k, key, now.app))
    case AuthExpiring(tx, k, key, reading) =>
      if fine then Go(AuthCommitExpired(tx, k, key, reading)) else Rollback(tx, Some(k))
    case AuthChecking(tx, k, key, reading) =>
      if !fine then Rollback(tx, Some(k))
      else if InUse(t, k) then Go(AuthClosing(tx, Some(k), KeyInUse))
      else Go(AuthTouching(tx, k, key, reading))
    case AuthTouching(tx, k, key, reading) =>
      if fine then Go(AuthCommitTouch(tx, k, key, reading)) else Rollback(tx, Some(k))
    case AuthClosing(tx, held, verdict) =>
      if c.outcome == Refused then Rollback(tx, held)
      else Move(AuthDecided(tx.req, verdict), EndTx(held, None))
    case AuthCommitExpired(tx, k, _, _) =>
      if c.outcome == Refused then Rollback(tx, Some(k))
      else Move(AuthDecided(tx.req, ExpiredKey), EndTx(Some(k), Some(MarkExpired(k))))
    case AuthCommitTouch(tx, k, _, _) =>
      if c.outcome == Refused then Rollback(tx, Some(k))
      else Move(AuthDecided(tx.req, Authenticated(k)), EndTx(Some(k), Some(TouchLastUsed(k, tx.begunAt))))
    case AuthDecided(req, verdict) =>
      Go(AuthReturned(req, if fine then Some(verdict) else None))

    case RevStart(id) =>
      if !fine then Go(RevRefused(id, DbError))
      else if id !in t.keys then Go(RevRefused(id, NotFound))
      else if t.keys[id].status != KeyActive then Go(RevRefused(id, InvalidStatus))
      else Go(RevFound(id))
    case RevFound(id) =>
      if !fine then Go(RevRefused(id, DbError)) else
      (match StreamOfKey(t, id)
       case None => Go(RevStamping(id, Sighting(None, false, t.streams.Keys)))
       case Some(sid) => Go(RevKicking(id, sid, t.streams.Keys)))
    case RevKicking(id, sid, seen) =>
      Go(RevEnding(id, sid, seen))
    case RevEnding(id, sid, seen) =>
      var on := RevStamping(id, Sighting(Some(sid), false, seen));
      Exec(t, c, EndStream(sid, now.db), on, on, RevStamping(id, Sighting(Some(sid), true, seen)))
    case RevStamping(id, look) =>
      Go(RevWriting(id, look, now.app))
    case RevWriting(id, look, at) =>
      Exec(t, c, UpdateStatus(id, KeyRevoked, Some(at)),
           RevReturned(id, look, Done), RevReturned(id, look, NotFound), RevReturned(id, look, DbError))

    case RdyStart(path, sourceType, sourceId) =>
      if path == "" || !fine then Go(RdyReturned(None)) else
      (match KeyByValue(t, path)
       case None => Go(RdyReturned(None))
       case Some(k) => Go(RdyFound(k, path, sourceType, sourceId)))
    case RdyFound(keyId, path, sourceType, sourceId) =>
      Go(RdyInserting(Stream(keyId, path, StreamActive, now.app, None, NonEmpty(sourceType), NonEmpty(sourceId))))
    case RdyInserting(row) =>
      Exec(t, c, InsertStream(c.newId, row), RdyReturned(Some(c.newId)), RdyReturned(None), RdyReturned(None))

    case EndStart(path) =>
      if path == "" then Go(EndReturned(path, BadRequest))
      else Exec(t, c, EndStreamByPath(path, now.db),
                EndReturned(path, Done), EndReturned(path, NotFound), EndReturned(path, DbError))

    case NewStart(broadcasterId, expiresAt) =>
      if !fine then Go(NewReturned(None))
      else Go(NewInserting(StreamKey(Generated(c.random), broadcasterId, KeyActive, now.app, expiresAt, None, None)))
    case NewInserting(key) =>
      Exec(t, c, InsertKey(c.newId, key), NewReturned(Some(c.newId)), NewReturned(None), NewReturned(None))

    case JoinStart(name) =>
      Exec(t, c, InsertBroadcaster(c.newId, Broadcaster(name)),
           BroadcasterReturned(Done), BroadcasterReturned(DbError), BroadcasterReturned(DbError))
    case LeaveStart(id) =>
      Exec(t, c, DeleteBroadcaster(id),
           BroadcasterReturned(Done), BroadcasterReturned(NotFound), BroadcasterReturned(DbError))
  }

  // ---------------------------------------------------------------- the system

  /** `used` is every identifier ever drawn; identifiers are never drawn twice. */
  datatype System = System(
    db: Tables,
    locks: map<Uuid, Handler>,
    clock: Clock,
    used: set<Uuid>,
    procs: map<Handler, Pc>
  )

  /** Calls that may arrive. */
  datatype Call =
    | CallAuthenticate(req: AuthRequest)
    | CallRevoke(id: Uuid)
    | CallReady(path: string, sourceType: string, sourceId: string)
    | CallNotReady(path: string)
    | CallCreateKey(broadcasterId: Uuid, expiresAt: Option<Instant>)
    | CallCreateBroadcaster(name: string)
    | CallDeleteBroadcaster(broadcasterId: Uuid)

  datatype Event =
    | Tick(to: Clock)
    | Arrive(h: Handler, call: Call)
    | Step(h: Handler, choice: Choice)

  function Start(call: Call, now: Clock): Pc {
    match call
    case CallAuthenticate(req) => AuthStart(req, now)
    case CallRevoke(id) => RevStart(id)
    case CallReady(path, sourceType, sourceId) => RdyStart(path, sourceType, sourceId)
    case CallNotReady(path) => EndStart(path)
    case CallCreateKey(broadcasterId, expiresAt) => NewStart(broadcasterId, expiresAt)
    case CallCreateBroadcaster(name) => JoinStart(name)
    case CallDeleteBroadcaster(id) => LeaveStart(id)
  }

  const INITIAL := System(EMPTY, map[], Clock(0, 0), {}, map[])

  /** The statement `pc` is about to issue has to wait for a key row's lock.  An insert that the
      index or a column width rejects fails before it comes to the foreign key's lock. */
  ghost predicate Waits(t: Tables, locks: map<Uuid, Handler>, pc: Pc) {
    match pc
    case AuthBegun(tx) =>
      KeyByValue(t, Presented(tx.req)).Some? && KeyByValue(t, Presented(tx.req)).value in locks
    case RevWriting(id, _, _) => id in locks
    case RdyInserting(row) => row.keyId in locks && !InUse(t, row.keyId) && StreamFits(row)
    case LeaveStart(b) => exists k :: k in locks && OwnedBy(t, k, b)
    case _ => false
  }

  /** Handler `h` has a step to take, should it not have to wait. */
  predicate Unfinished(s: System, h: Handler, c: Choice) {
    h in s.procs && !Finished(s.procs[h]) && c.newId !in s.used && |c.random| == ENTROPY
  }

  ghost predicate Enabled(s: System, e: Event) {
    match e
    case Tick(to) => s.clock.NotAfter(to)
    case Arrive(h, _) => h !in s.procs
    case Step(h, c) => Unfinished(s, h, c) && !Waits(s.db, s.locks, s.procs[h])
  }

  ghost function TablesAfter(t: Tables, effect: Effect): Tables {
    match effect
    case Write(st) => Run(t, st)
    case EndTx(_, Some(st)) => Run(t, st)
    case _ => t
  }

  function LocksAfter(locks: map<Uuid, Handler>, h: Handler, effect: Effect): map<Uuid, Handler> {
    match effect
    case TakeLock(k) => locks[k := h]
    case EndTx(Some(k), _) => locks - {k}
    case _ => locks
  }

  ghost function Moved(s: System, h: Handler, c: Choice): System
    requires Unfinished(s, h, c)
  {
    var m := Advance(s.db, s.clock, s.procs[h], c);
    System(TablesAfter(s.db, m.effect), LocksAfter(s.locks, h, m.effect), s.clock,
           s.used + {c.newId}, s.procs[h := m.next])
  }

  ghost function Next(s: System, e: Event): System
    requires Enabled(s, e)
  {
    match e
    case Tick(to) => s.(clock := to)
    case Arrive(h, call) => s.(procs := s.procs[h := Start(call, s.clock)])
    case Step(h, c) => Moved(s, h, c)
  }

  /** `es` can happen from `s`, in that order. */
  ghost predicate Feasible(s: System, es: seq<Event>)
    decreases |es|
  {
    es == [] || (Enabled(s, es[0]) && Feasible(Next(s, es[0]), es[1..]))
  }

  ghost function After(s: System, es: seq<Event>): System
    requires Feasible(s, es)
    decreases |es|
  {
    if es == [] then s else After(Next(s, es[0]), es[1..])
  }

  lemma RunStarts(s: System, e: Event, rest: seq<Event>)
    requires Enabled(s, e) && Feasible(Next(s, e), rest)
    ensures Feasible(s, [e] + rest) && After(s, [e] + rest) == After(Next(s, e), rest)
  {
    assert ([e] + rest)[1..] == rest;
  }

  /** The key whose row lock a handler holds at `pc`. */
  function Holds(pc: Pc): Option<Uuid> {
    match pc
    case AuthLocked(_, k, _) => Some(k)
    case AuthExpiring(_, k, _, _) => Some(k)
    case AuthChecking(_, k, _, _) => Some(k)
    case AuthTouching(_, k, _, _) => Some(k)
    case AuthClosing(_, held, _) => held
    case AuthCommitExpired(_, k, _, _) => Some(k)
    case AuthCommitTouch(_, k, _, _) => Some(k)
    case _ => None
  }
}
