/** What holds in every state the interleaved handlers can reach. */
module Invariant {
  import opened Domain
  import opened Schema
  import opened Statements
  import opened KeyText
  import opened Verdicts
  import opened Protocol
  import opened Evolution

  /** The transaction began after the request arrived, and both are in the past. */
  predicate TxOk(tx: Tx, now: Clock) {
    && tx.since.NotAfter(now)
    && tx.since.db <= tx.begunAt <= now.db
    && EarlyVerdict(tx.req) == None
  }

  /** The row read under the lock is still the row in the table. */
  ghost predicate ReadStillTrue(t: Tables, tx: Tx, k: Uuid, key: StreamKey) {
    k in t.keys && t.keys[k] == key && key.keyValue == Presented(tx.req)
  }

  predicate ReadingOk(tx: Tx, reading: Instant, now: Clock) {
    tx.since.app <= reading <= now.app
  }

  /** Of the streams that existed at Revoke's read, only the one it read can still be active, and
      that one is a stream of its own key. */
  ghost predicate OnlyLiveIs(t: Tables, id: Uuid, seen: set<Uuid>, sid: Uuid) {
    && sid in seen
    && (sid in t.streams ==> t.streams[sid].keyId == id)
    && forall x :: x in seen && LiveFor(t, x, id) ==> x == sid
  }

  /** Unless ending it hit a database error, nothing Revoke saw is active any more. */
  ghost predicate LookOk(t: Tables, used: set<Uuid>, id: Uuid, look: Sighting) {
    && look.seen <= used
    && (look.stream.Some? ==> look.stream.value in look.seen)
    && (!look.endError ==>
          && (forall x :: x in look.seen ==> !LiveFor(t, x, id))
          && (look.stream.Some? ==> !Live(t, look.stream.value)))
  }

  ghost predicate PathIs(t: Tables, used: set<Uuid>, keyId: Uuid, path: string) {
    keyId in used && (keyId in t.keys ==> t.keys[keyId].keyValue == path)
  }

  /** What a handler's local variables say about the shared state, at each program counter. */
  ghost predicate PcOk(t: Tables, now: Clock, used: set<Uuid>, pc: Pc) {
    match pc
    case AuthStart(_, since) => since.NotAfter(now)
    case AuthBegun(tx) => TxOk(tx, now)
    case AuthLocked(tx, k, key) => TxOk(tx, now) && ReadStillTrue(t, tx, k, key)
    case AuthExpiring(tx, k, key, reading) =>
      && TxOk(tx, now) && ReadStillTrue(t, tx, k, key) && ReadingOk(tx, reading, now)
      && key.status == KeyActive && key.PastExpiry(reading)
    case AuthChecking(tx, k, key, reading) =>
      TxOk(tx, now) && ReadStillTrue(t, tx, k, key) && ReadingOk(tx, reading, now) && key.IsValid(reading)
    case AuthTouching(tx, k, key, reading) =>
      && TxOk(tx, now) && ReadStillTrue(t, tx, k, key) && ReadingOk(tx, reading, now)
      && key.IsValid(reading) && !InUse(t, k)
    case AuthClosing(tx, held, verdict) =>
      TxOk(tx, now) && !verdict.Allowed() && (held.Some? ==> held.value in t.keys)
    case AuthCommitExpired(tx, k, key, reading) =>
      && TxOk(tx, now) && ReadStillTrue(t, tx, k, key) && ReadingOk(tx, reading, now)
      && key.status == KeyActive && key.PastExpiry(reading)
    case AuthCommitTouch(tx, k, key, reading) =>
      && TxOk(tx, now) && ReadStillTrue(t, tx, k, key) && ReadingOk(tx, reading, now)
      && key.IsValid(reading) && !InUse(t, k)
    case RevKicking(id, sid, seen) => seen <= used && OnlyLiveIs(t, id, seen, sid)
    case RevEnding(id, sid, seen) => seen <= used && OnlyLiveIs(t, id, seen, sid)
    case RevStamping(id, look) => LookOk(t, used, id, look)
    case RevWriting(id, look, _) => LookOk(t, used, id, look)
    case RevReturned(id, look, reply) =>
      && LookOk(t, used, id, look)
      && (reply == Done ==> id in used && (id in t.keys ==> t.keys[id].status == KeyRevoked))
    case RdyFound(keyId, path, _, _) => PathIs(t, used, keyId, path)
    case RdyInserting(row) =>
      row.status == StreamActive && row.endedAt == None && PathIs(t, used, row.keyId, row.path)
    case NewInserting(key) => key.status == KeyActive && key.revokedAt == None
    case _ => true
  }

  /** A key row is locked exactly when some transaction is between its SELECT ... FOR UPDATE and
      its end, and that transaction is the lock's owner. */
  ghost predicate LocksOk(locks: map<Uuid, Handler>, procs: map<Handler, Pc>) {
    && (forall h, k :: h in procs && Holds(procs[h]) == Some(k) ==> k in locks && locks[k] == h)
    && (forall k :: k in locks ==> locks[k] in procs && Holds(procs[locks[k]]) == Some(k))
  }

  ghost predicate ProcsOk(s: System) {
    forall h :: h in s.procs ==> PcOk(s.db, s.clock, s.used, s.procs[h])
  }

  ghost predicate Inv(s: System) {
    && Constraints(s.db)
    && Coherent(s.db)
    && IdsUsed(s.db, s.used)
    && ExpiredIsPast(s.db, s.clock.app)
    && LocksOk(s.locks, s.procs)
    && ProcsOk(s)
  }

  // ---------------------------------------------------------------- one step of one handler

  function Issued(effect: Effect): Option<Statement> {
    match effect
    case Write(st) => Some(st)
    case EndTx(_, w) => w
    case _ => None
  }

  /** A handler only issues statements in the circumstances they are meant for. */
  lemma IssuesLegalStatements(t: Tables, now: Clock, used: set<Uuid>, pc: Pc, c: Choice)
    requires PcOk(t, now, used, pc) && !Finished(pc) && c.newId !in used
    ensures var issued := Issued(Advance(t, now, pc, c).effect);
            issued.Some? ==> Legal(t, used, now.app, issued.value)
  {
  }

  lemma LockedKeyExists(s: System, k: Uuid)
    requires LocksOk(s.locks, s.procs) && ProcsOk(s) && k in s.locks
    ensures k in s.db.keys
  {
    var pc := s.procs[s.locks[k]];
    assert Holds(pc) == Some(k) && PcOk(s.db, s.clock, s.used, pc);
  }

  /** No handler issues a statement that touches a row another handler has locked. */
  lemma SparesOthersLocks(t: Tables, locks: map<Uuid, Handler>, now: Clock, pc: Pc, c: Choice, k: Uuid)
    requires !Finished(pc) && !Waits(t, locks, pc)
    requires k in locks && k in t.keys && k != c.newId && Holds(pc) != Some(k)
    requires pc.RdyInserting? ==> pc.row.status == StreamActive
    ensures var issued := Issued(Advance(t, now, pc, c).effect);
            issued.Some? ==> Spares(t, issued.value, k)
  {
  }

  /** The move takes the lock of key row `k`, or issues a statement that touches what it protects. */
  ghost predicate Touches(t: Tables, m: Move, k: Uuid) {
    m.effect == TakeLock(k) || (Issued(m.effect).Some? && !Spares(t, Issued(m.effect).value, k))
  }

  /** A handler without a lock waits exactly while its next statement, did it go well, would touch a
      row that some handler has locked: for nothing less, and for nothing more. */
  lemma WaitsIffItWouldTouch(s: System, h: Handler, c: Choice)
    requires Inv(s) && Unfinished(s, h, c) && c.outcome == Fine && Holds(s.procs[h]) == None
    ensures Waits(s.db, s.locks, s.procs[h]) <==>
            exists k :: k in s.locks && Touches(s.db, Advance(s.db, s.clock, s.procs[h], c), k)
  {
    var pc := s.procs[h];
    assert PcOk(s.db, s.clock, s.used, pc);
    forall k | k in s.locks ensures k in s.db.keys {
      LockedKeyExists(s, k);
    }
    WaitsIffTouches(s.db, s.locks, s.clock, pc, c);
  }

  lemma WaitsIffTouches(t: Tables, locks: map<Uuid, Handler>, now: Clock, pc: Pc, c: Choice)
    requires !Finished(pc) && c.outcome == Fine && Holds(pc) == None
    requires c.newId !in t.keys && c.newId !in t.streams
    requires forall k :: k in locks ==> k in t.keys
    requires pc.RdyInserting? ==> pc.row.status == StreamActive
    ensures Waits(t, locks, pc) <==> exists k :: k in locks && Touches(t, Advance(t, now, pc, c), k)
  {
    if Waits(t, locks, pc) {
      var k: Uuid;
      match pc {
        case AuthBegun(tx) => k := KeyByValue(t, Presented(tx.req)).value;
        case RevWriting(id, _, _) => k := id;
        case RdyInserting(row) => k := row.keyId;
        case LeaveStart(b) => k :| k in locks && OwnedBy(t, k, b);
      }
      assert Touches(t, Advance(t, now, pc, c), k);
    }
  }

  /** Another handler's step, the clock or an arrival leaves what a handler knows true. */
  lemma PcOkStable(t: Tables, now: Clock, used: set<Uuid>, u: Tables, now': Clock, used': set<Uuid>, pc: Pc)
    requires PcOk(t, now, used, pc)
    requires now.NotAfter(now') && used <= used' && TablesEvolve(t, used, u)
    requires Holds(pc).Some? ==> Untouched(t, u, Holds(pc).value)
    ensures PcOk(u, now', used', pc)
  {
    if pc.RevKicking? || pc.RevEnding? {
      LivesOnlyShrink(t, used, u, pc.seen, pc.id);
    } else if pc.RevStamping? || pc.RevWriting? || pc.RevReturned? {
      LivesOnlyShrink(t, used, u, pc.look.seen, pc.id);
    }
  }

  /** Among streams that existed once, no stream ever becomes active. */
  lemma LivesOnlyShrink(t: Tables, used: set<Uuid>, u: Tables, seen: set<Uuid>, k: Uuid)
    requires TablesEvolve(t, used, u) && seen <= used
    ensures forall x :: x in seen && Live(u, x) ==> Live(t, x)
    ensures forall x :: x in seen && LiveFor(u, x, k) ==> LiveFor(t, x, k)
  {
  }

  /** The handler that steps knows, afterwards, what its new program counter claims. */
  lemma MoverStaysOk(t: Tables, now: Clock, used: set<Uuid>, pc: Pc, c: Choice)
    requires Constraints(t) && IdsUsed(t, used)
    requires PcOk(t, now, used, pc) && !Finished(pc) && c.newId !in used
    ensures var m := Advance(t, now, pc, c);
            PcOk(TablesAfter(t, m.effect), now, used + {c.newId}, m.next)
  {
    if Authenticating(pc) {
      AuthMovesOk(t, now, used, pc, c);
    } else if pc.RevEnding? {
      EndingMovesOk(t, now, used, pc, c);
    } else if pc.RevWriting? {
      WritingMovesOk(t, now, used, pc, c);
    } else {
      OtherMovesOk(t, now, used, pc, c);
    }
  }

  lemma OtherMovesOk(t: Tables, now: Clock, used: set<Uuid>, pc: Pc, c: Choice)
    requires !Authenticating(pc) && !pc.RevEnding? && !pc.RevWriting? && !Finished(pc)
    requires OneActivePerKey(t) && IdsUsed(t, used) && PcOk(t, now, used, pc)
    ensures var m := Advance(t, now, pc, c);
            PcOk(TablesAfter(t, m.effect), now, used + {c.newId}, m.next)
  {
    if pc.RevFound? {
      RevokeReadsTheOnlyStream(t, pc.id);
    }
  }

  lemma AuthMovesOk(t: Tables, now: Clock, used: set<Uuid>, pc: Pc, c: Choice)
    requires Authenticating(pc) && !Finished(pc)
    requires PcOk(t, now, used, pc)
    ensures var m := Advance(t, now, pc, c);
            PcOk(TablesAfter(t, m.effect), now, used + {c.newId}, m.next)
  {
  }

  lemma RevokeReadsTheOnlyStream(t: Tables, id: Uuid)
    requires OneActivePerKey(t)
    ensures match StreamOfKey(t, id)
            case None => forall x :: !LiveFor(t, x, id)
            case Some(sid) => LiveFor(t, sid, id) && forall x :: LiveFor(t, x, id) ==> x == sid
  {
  }

  lemma EndingMovesOk(t: Tables, now: Clock, used: set<Uuid>, pc: Pc, c: Choice)
    requires pc.RevEnding? && PcOk(t, now, used, pc)
    ensures var m := Advance(t, now, pc, c);
            PcOk(TablesAfter(t, m.effect), now, used + {c.newId}, m.next)
  {
    var u := Run(t, EndStream(pc.sid, now.db));
    assert !Live(u, pc.sid);
    assert forall x :: LiveFor(u, x, pc.id) ==> LiveFor(t, x, pc.id) && x != pc.sid;
  }

  lemma WritingMovesOk(t: Tables, now: Clock, used: set<Uuid>, pc: Pc, c: Choice)
    requires pc.RevWriting? && PcOk(t, now, used, pc) && IdsUsed(t, used)
    ensures var m := Advance(t, now, pc, c);
            PcOk(TablesAfter(t, m.effect), now, used + {c.newId}, m.next)
  {
    var u := Run(t, UpdateStatus(pc.id, KeyRevoked, Some(pc.at)));
    assert u.streams == t.streams;
  }

  // ---------------------------------------------------------------- the whole system

  /** The identifier a statement gives a new row, if it inserts one. */
  function Introduces(st: Statement): Option<Uuid> {
    match st
    case InsertBroadcaster(id, _) => Some(id)
    case InsertKey(id, _) => Some(id)
    case InsertStream(id, _) => Some(id)
    case _ => None
  }

  lemma IntroducesOwnId(t: Tables, now: Clock, pc: Pc, c: Choice)
    requires !Finished(pc)
    ensures var issued := Issued(Advance(t, now, pc, c).effect);
            issued.Some? && Introduces(issued.value).Some? ==> Introduces(issued.value).value == c.newId
  {
  }

  lemma RunAddsOnlyIntroduced(t: Tables, used: set<Uuid>, st: Statement, id: Uuid)
    requires IdsUsed(t, used) && (Introduces(st).Some? ==> Introduces(st).value == id)
    ensures IdsUsed(Run(t, st), used + {id})
  {
  }

  /** The only identifier a step can add to the tables is the one it drew. */
  lemma IdsStayUsed(t: Tables, used: set<Uuid>, now: Clock, pc: Pc, c: Choice)
    requires IdsUsed(t, used) && !Finished(pc)
    ensures IdsUsed(TablesAfter(t, Advance(t, now, pc, c).effect), used + {c.newId})
  {
    IntroducesOwnId(t, now, pc, c);
    var issued := Issued(Advance(t, now, pc, c).effect);
    if issued.Some? {
      RunAddsOnlyIntroduced(t, used, issued.value, c.newId);
    }
  }

  /** Taking a free lock, giving back what is held, or keeping it. */
  ghost predicate LockMove(locks: map<Uuid, Handler>, pc: Pc, m: Move) {
    match m.effect
    case TakeLock(k) => k !in locks && Holds(pc) == None && Holds(m.next) == Some(k)
    case EndTx(held, _) => held == Holds(pc) && Holds(m.next) == None
    case _ => Holds(m.next) == Holds(pc)
  }

  lemma LocksStayOk(locks: map<Uuid, Handler>, procs: map<Handler, Pc>, h: Handler, m: Move)
    requires LocksOk(locks, procs) && h in procs && LockMove(locks, procs[h], m)
    ensures LocksOk(LocksAfter(locks, h, m.effect), procs[h := m.next])
  {
    forall h', k | h' in procs && h' != h && Holds(procs[h']) == Some(k)
      ensures k in LocksAfter(locks, h, m.effect) && LocksAfter(locks, h, m.effect)[k] == h'
    {
      assert k in locks && locks[k] == h';
    }
  }

  lemma LockChange(t: Tables, locks: map<Uuid, Handler>, now: Clock, pc: Pc, c: Choice)
    requires !Finished(pc) && !Waits(t, locks, pc)
    ensures LockMove(locks, pc, Advance(t, now, pc, c))
  {
  }

  lemma StepKeepsInv(s: System, h: Handler, c: Choice)
    requires Inv(s) && Enabled(s, Step(h, c))
    ensures Inv(Next(s, Step(h, c)))
    ensures Evolves(s, Next(s, Step(h, c)))
  {
    var pc := s.procs[h];
    assert PcOk(s.db, s.clock, s.used, pc);
    var m := Advance(s.db, s.clock, pc, c);
    var s' := Next(s, Step(h, c));
    IdsStayUsed(s.db, s.used, s.clock, pc, c);
    LockChange(s.db, s.locks, s.clock, pc, c);
    LocksStayOk(s.locks, s.procs, h, m);
    IssuesLegalStatements(s.db, s.clock, s.used, pc, c);
    EffectTables(s.db, s.used, s.clock.app, m.effect);
    forall h' | h' in s'.procs ensures PcOk(s'.db, s'.clock, s'.used, s'.procs[h']) {
      if h' == h {
        MoverStaysOk(s.db, s.clock, s.used, pc, c);
      } else {
        BystanderStaysOk(s, h, c, h');
      }
    }
  }

  lemma EffectTables(t: Tables, used: set<Uuid>, now: Instant, effect: Effect)
    requires Constraints(t) && Coherent(t) && IdsUsed(t, used) && ExpiredIsPast(t, now)
    requires Issued(effect).Some? ==> Legal(t, used, now, Issued(effect).value)
    ensures var u := TablesAfter(t, effect);
            Constraints(u) && Coherent(u) && ExpiredIsPast(u, now) && TablesEvolve(t, used, u)
  {
    if Issued(effect).Some? {
      LegalRun(t, used, now, Issued(effect).value);
    }
  }

  lemma LegalRun(t: Tables, used: set<Uuid>, now: Instant, st: Statement)
    requires Constraints(t) && Coherent(t) && IdsUsed(t, used) && ExpiredIsPast(t, now)
    requires Legal(t, used, now, st)
    ensures var u := Run(t, st);
            Constraints(u) && Coherent(u) && ExpiredIsPast(u, now) && TablesEvolve(t, used, u)
  {
    RunKeepsConstraints(t, st);
    LegalRunCoherent(t, used, now, st);
    LegalRunExpiredIsPast(t, used, now, st);
    LegalRunEvolves(t, used, now, st);
  }

  lemma BystanderStaysOk(s: System, h: Handler, c: Choice, h': Handler)
    requires Inv(s) && Enabled(s, Step(h, c)) && h' in s.procs && h' != h
    ensures var s' := Next(s, Step(h, c));
            PcOk(s'.db, s'.clock, s'.used, s.procs[h'])
  {
    var pc, s' := s.procs[h], Next(s, Step(h, c));
    assert PcOk(s.db, s.clock, s.used, pc);
    IssuesLegalStatements(s.db, s.clock, s.used, pc, c);
    EffectTables(s.db, s.used, s.clock.app, Advance(s.db, s.clock, pc, c).effect);
    if Holds(s.procs[h']).Some? {
      HeldRowIsUntouched(s, h, c, h', Holds(s.procs[h']).value);
    }
    PcOkStable(s.db, s.clock, s.used, s'.db, s'.clock, s'.used, s.procs[h']);
  }

  /** While a transaction holds a key's lock, no other handler's step changes the key or gives it
      an active stream. */
  lemma HeldRowIsUntouched(s: System, h: Handler, c: Choice, h': Handler, k: Uuid)
    requires Inv(s) && Enabled(s, Step(h, c)) && h' in s.procs && h' != h && Holds(s.procs[h']) == Some(k)
    ensures k in s.db.keys && Untouched(s.db, Next(s, Step(h, c)).db, k)
  {
    var pc := s.procs[h];
    assert PcOk(s.db, s.clock, s.used, pc);
    LockedKeyExists(s, k);
    assert Holds(pc) != Some(k);
    SparesOthersLocks(s.db, s.locks, s.clock, pc, c, k);
    match Issued(Advance(s.db, s.clock, pc, c).effect)
    case None =>
    case Some(st) => SparedIsUntouched(s.db, st, k);
  }

  /** Every event keeps the invariant, and everything in the tables evolves. */
  lemma NextKeepsInv(s: System, e: Event)
    requires Inv(s) && Enabled(s, e)
    ensures Inv(Next(s, e)) && Evolves(s, Next(s, e))
  {
    match e
    case Step(h, c) => StepKeepsInv(s, h, c);
    case Tick(to) => TickKeepsInv(s, to);
    case Arrive(h, call) => ArriveKeepsInv(s, h, call);
  }

  lemma TickKeepsInv(s: System, to: Clock)
    requires Inv(s) && s.clock.NotAfter(to)
    ensures Inv(s.(clock := to))
  {
    forall h | h in s.procs ensures PcOk(s.db, to, s.used, s.procs[h]) {
      PcOkStable(s.db, s.clock, s.used, s.db, to, s.used, s.procs[h]);
    }
  }

  lemma ArriveKeepsInv(s: System, h: Handler, call: Call)
    requires Inv(s) && h !in s.procs
    ensures Inv(s.(procs := s.procs[h := Start(call, s.clock)]))
  {
    var pc := Start(call, s.clock);
    assert PcOk(s.db, s.clock, s.used, pc) && Holds(pc) == None;
  }

  /** The invariant holds along every run, and the end of a run is an evolution of its start. */
  lemma {:induction false} RunKeepsInv(s: System, es: seq<Event>)
    requires Inv(s) && Feasible(s, es)
    ensures Inv(After(s, es)) && Evolves(s, After(s, es))
    decreases |es|
  {
    if es != [] {
      NextKeepsInv(s, es[0]);
      RunKeepsInv(Next(s, es[0]), es[1..]);
      EvolvesTransitive(s, Next(s, es[0]), After(s, es));
    }
  }

  /** The full table invariant, in every state reachable from the empty database. */
  lemma ReachableInv(es: seq<Event>)
    requires Feasible(INITIAL, es)
    ensures Inv(After(INITIAL, es))
  {
    RunKeepsInv(INITIAL, es);
  }
}
