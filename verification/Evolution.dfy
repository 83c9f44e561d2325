/** How the tables may change under the statements the handlers issue. */
module Evolution {
  import opened Domain
  import opened Schema
  import opened Statements
  import opened Protocol

  /** A surviving key keeps its identity and only moves forward; past `active` it is never used. */
  predicate KeyEvolves(x: StreamKey, y: StreamKey) {
    && y.keyValue == x.keyValue
    && y.broadcasterId == x.broadcasterId
    && y.createdAt == x.createdAt
    && y.expiresAt == x.expiresAt
    && x.status.Rank() <= y.status.Rank()
    && (x.status != KeyActive ==> y.lastUsedAt == x.lastUsedAt)
  }

  /** A surviving stream is unchanged, or has gone from active to ended and changed nothing else. */
  predicate StreamEvolves(x: Stream, y: Stream) {
    || y == x
    || (x.status == StreamActive && y.endedAt.Some? && y == x.EndedAt(y.endedAt.value))
  }

  /** Rows either evolve or are new, and an identifier that has been used is never a new row's. */
  ghost predicate TablesEvolve(t: Tables, used: set<Uuid>, u: Tables) {
    && (forall b :: b in u.broadcasters ==> b in t.broadcasters || b !in used)
    && (forall k :: k in u.keys ==> (k in t.keys && KeyEvolves(t.keys[k], u.keys[k])) || k !in used)
    && (forall sid :: sid in u.streams ==>
          (sid in t.streams && StreamEvolves(t.streams[sid], u.streams[sid])) || sid !in used)
  }

  ghost predicate Evolves(s: System, s': System) {
    && s.clock.NotAfter(s'.clock)
    && s.used <= s'.used
    && TablesEvolve(s.db, s.used, s'.db)
  }

  lemma EvolvesTransitive(a: System, b: System, c: System)
    requires Evolves(a, b) && Evolves(b, c)
    ensures Evolves(a, c)
  {
  }

  ghost predicate IdsUsed(t: Tables, used: set<Uuid>) {
    t.broadcasters.Keys <= used && t.keys.Keys <= used && t.streams.Keys <= used
  }

  /** A key is marked expired only once its expiry time is past. */
  ghost predicate ExpiredIsPast(t: Tables, now: Instant) {
    forall k :: k in t.keys && t.keys[k].status == KeyExpired ==> t.keys[k].PastExpiry(now)
  }

  /** The circumstances in which handlers issue each statement. */
  ghost predicate Legal(t: Tables, used: set<Uuid>, now: Instant, st: Statement) {
    match st
    case InsertBroadcaster(id, _) => id !in used
    case DeleteBroadcaster(_) => true
    case InsertKey(id, key) => id !in used && key.status == KeyActive && key.revokedAt == None
    case MarkExpired(k) => k in t.keys && t.keys[k].status == KeyActive && t.keys[k].PastExpiry(now)
    case TouchLastUsed(k, _) => k in t.keys && t.keys[k].status == KeyActive
    case UpdateStatus(_, status, revokedAt) => status == KeyRevoked && revokedAt.Some?
    case InsertStream(id, row) =>
      && id !in used
      && row.status == StreamActive
      && row.endedAt == None
      && (row.keyId in t.keys ==> row.path == t.keys[row.keyId].keyValue)
    case EndStream(_, _) => true
    case EndStreamByPath(_, _) => true
  }

  lemma LegalRunEvolves(t: Tables, used: set<Uuid>, now: Instant, st: Statement)
    requires IdsUsed(t, used) && Legal(t, used, now, st)
    ensures TablesEvolve(t, used, Run(t, st))
  {
  }

  lemma LegalRunCoherent(t: Tables, used: set<Uuid>, now: Instant, st: Statement)
    requires ForeignKeys(t) && Coherent(t) && IdsUsed(t, used) && Legal(t, used, now, st)
    ensures Coherent(Run(t, st))
  {
    if st.InsertKey? {
      assert forall sid :: sid in t.streams ==> t.streams[sid].keyId in t.keys;
    }
  }

  lemma LegalRunExpiredIsPast(t: Tables, used: set<Uuid>, now: Instant, st: Statement)
    requires ExpiredIsPast(t, now) && Legal(t, used, now, st)
    ensures ExpiredIsPast(Run(t, st), now)
  {
  }

  /** Statements that only remove rows or end streams keep the tables meaningful, always. */
  lemma RemovalKeepsTables(t: Tables, st: Statement)
    requires Constraints(t) && Coherent(t)
    requires st.DeleteBroadcaster? || st.EndStream? || st.EndStreamByPath?
    ensures Constraints(Run(t, st)) && Coherent(Run(t, st))
  {
    RunKeepsConstraints(t, st);
    LegalRunCoherent(t, t.broadcasters.Keys + t.keys.Keys + t.streams.Keys, 0, st);
  }

  /** A stream that means what it says, inserted or rejected, keeps the tables meaningful. */
  lemma InsertKeepsTables(t: Tables, id: Uuid, row: Stream)
    requires Constraints(t) && Coherent(t)
    requires row.status == StreamEnded <==> row.endedAt.Some?
    requires row.keyId in t.keys ==> row.path == t.keys[row.keyId].keyValue
    ensures Coherent(Run(t, InsertStream(id, row)))
  {
  }

  // ---------------------------------------------------------------- what a row lock protects

  /** Key row `k` is the same, and it has no active stream it did not have before. */
  ghost predicate Untouched(t: Tables, u: Tables, k: Uuid) {
    && (k in t.keys ==> k in u.keys && u.keys[k] == t.keys[k])
    && (forall sid :: LiveFor(u, sid, k) ==> LiveFor(t, sid, k))
  }

  /** `st` is not a statement that would have to hold or wait for the lock of `k`. */
  ghost predicate Spares(t: Tables, st: Statement, k: Uuid) {
    match st
    case MarkExpired(id) => id != k
    case TouchLastUsed(id, _) => id != k
    case UpdateStatus(id, _, _) => id != k
    case DeleteBroadcaster(b) => !OwnedBy(t, k, b)
    case InsertKey(id, _) => id != k
    case InsertStream(id, row) => row.keyId != k || !Succeeds(t, st)
    case _ => true
  }

  lemma SparedIsUntouched(t: Tables, st: Statement, k: Uuid)
    requires Spares(t, st, k)
    ensures Untouched(t, Run(t, st), k)
  {
  }
}
