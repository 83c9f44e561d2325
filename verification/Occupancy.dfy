/** The streams table, with all its history, means no more than a plain map from each key to the
    stream now running on it. */
module Occupancy {
  import opened Domain
  import opened Schema
  import opened Statements
  import opened Protocol
  import opened Evolution
  import opened Invariant

  /** The stream now running on each key. */
  ghost function Current(t: Tables): map<Uuid, Uuid> {
    map k | k in t.keys && InUse(t, k) :: StreamOfKey(t, k).value
  }

  /** The map's own account of each statement: a start on a free key takes it, an end frees the
      key it names, a deletion drops the keys it owns, and everything else is a no-op. */
  ghost function Account(m: map<Uuid, Uuid>, t: Tables, st: Statement): map<Uuid, Uuid> {
    match st
    case InsertStream(id, row) =>
      if row.keyId in t.keys && row.keyId !in m && StreamFits(row) then m[row.keyId := id] else m
    case EndStream(sid, _) => map k | k in m && m[k] != sid :: m[k]
    case EndStreamByPath(path, _) => map k | k in m && (k in t.keys ==> t.keys[k].keyValue != path) :: m[k]
    case DeleteBroadcaster(b) => map k | k in m && !OwnedBy(t, k, b) :: m[k]
    case _ => m
  }

  lemma CurrentIs(t: Tables, k: Uuid, sid: Uuid)
    requires ForeignKeys(t) && OneActivePerKey(t)
    ensures LiveFor(t, sid, k) <==> k in Current(t) && Current(t)[k] == sid
  {
    if LiveFor(t, sid, k) {
      StreamOfKeyIs(t, sid, k);
    }
  }

  /** Two tables with the same live rows have the same current streams. */
  lemma CurrentDetermined(t: Tables, m: map<Uuid, Uuid>)
    requires ForeignKeys(t) && OneActivePerKey(t)
    requires forall k, sid :: LiveFor(t, sid, k) <==> k in m && m[k] == sid
    ensures Current(t) == m
  {
    forall k ensures k in Current(t) <==> k in m {
      if k in m { assert LiveFor(t, m[k], k); CurrentIs(t, k, m[k]); }
      if k in Current(t) { CurrentIs(t, k, Current(t)[k]); }
    }
    forall k | k in m ensures Current(t)[k] == m[k] {
      CurrentIs(t, k, m[k]);
      assert LiveFor(t, m[k], k);
    }
  }

  /** The streams table refines the plain map, statement by statement. */
  lemma StatementsKeepAccounts(t: Tables, used: set<Uuid>, now: Instant, st: Statement)
    requires Constraints(t) && Coherent(t) && IdsUsed(t, used) && Legal(t, used, now, st)
    ensures Current(Run(t, st)) == Account(Current(t), t, st)
  {
    var u, m := Run(t, st), Account(Current(t), t, st);
    RunKeepsConstraints(t, st);
    forall k, sid ensures LiveFor(u, sid, k) <==> k in m && m[k] == sid {
      CurrentIs(t, k, sid);
      LiveRowsAccountedFor(t, used, now, st, k, sid);
    }
    CurrentDetermined(u, m);
  }

  lemma LiveRowsAccountedFor(t: Tables, used: set<Uuid>, now: Instant, st: Statement, k: Uuid, sid: Uuid)
    requires Constraints(t) && Coherent(t) && IdsUsed(t, used) && Legal(t, used, now, st)
    requires LiveFor(t, sid, k) <==> k in Current(t) && Current(t)[k] == sid
    ensures var m := Account(Current(t), t, st);
            LiveFor(Run(t, st), sid, k) <==> k in m && m[k] == sid
  {
    match st
    case InsertStream(id, row) =>
      OccupiedIsCurrent(t, row.keyId);
      InsertAccountedFor(t, Current(t), id, row, k, sid);
    case DeleteBroadcaster(b) => CascadeAccountedFor(t, Current(t), b, k, sid);
    case EndStreamByPath(path, at) => EndAccountedFor(t, Current(t), path, at, k, sid);
    case _ => OtherAccountedFor(t, Current(t), st, k, sid);
  }

  lemma OtherAccountedFor(t: Tables, m: map<Uuid, Uuid>, st: Statement, k: Uuid, sid: Uuid)
    requires !st.InsertStream? && !st.DeleteBroadcaster? && !st.EndStreamByPath?
    requires LiveFor(t, sid, k) <==> k in m && m[k] == sid
    ensures LiveFor(Run(t, st), sid, k) <==> k in Account(m, t, st) && Account(m, t, st)[k] == sid
  {
    if !st.EndStream? {
      assert Run(t, st).streams == t.streams;
    }
  }

  lemma InsertAccountedFor(t: Tables, m: map<Uuid, Uuid>, id: Uuid, row: Stream, k: Uuid, sid: Uuid)
    requires id !in t.streams && row.status == StreamActive && (InUse(t, row.keyId) <==> row.keyId in m)
    requires LiveFor(t, sid, k) <==> k in m && m[k] == sid
    ensures var st := InsertStream(id, row);
            LiveFor(Run(t, st), sid, k) <==> k in Account(m, t, st) && Account(m, t, st)[k] == sid
  {
    var u := Run(t, InsertStream(id, row));
    if Succeeds(t, InsertStream(id, row)) {
      assert LiveFor(u, sid, k) <==> (sid == id && k == row.keyId) || LiveFor(t, sid, k);
      assert LiveFor(t, sid, row.keyId) ==> InUse(t, row.keyId);
    }
  }

  lemma CascadeAccountedFor(t: Tables, m: map<Uuid, Uuid>, b: Uuid, k: Uuid, sid: Uuid)
    requires ForeignKeys(t)
    requires LiveFor(t, sid, k) <==> k in m && m[k] == sid
    ensures var st := DeleteBroadcaster(b);
            LiveFor(Run(t, st), sid, k) <==> k in Account(m, t, st) && Account(m, t, st)[k] == sid
  {
  }

  lemma EndAccountedFor(t: Tables, m: map<Uuid, Uuid>, path: string, at: Instant, k: Uuid, sid: Uuid)
    requires ForeignKeys(t) && Coherent(t)
    requires LiveFor(t, sid, k) <==> k in m && m[k] == sid
    ensures var st := EndStreamByPath(path, at);
            LiveFor(Run(t, st), sid, k) <==> k in Account(m, t, st) && Account(m, t, st)[k] == sid
  {
    if LiveFor(t, sid, k) {
      assert LiveAt(t, sid, path) <==> t.keys[k].keyValue == path;
    }
  }

  ghost function StatementOf(s: System, e: Event): Option<Statement>
    requires Enabled(s, e)
  {
    match e
    case Step(h, c) => Issued(Advance(s.db, s.clock, s.procs[h], c).effect)
    case _ => None
  }

  /** The plain map carried along a run, seeing only the statements. */
  ghost function Accounts(m: map<Uuid, Uuid>, s: System, es: seq<Event>): map<Uuid, Uuid>
    requires Feasible(s, es)
    decreases |es|
  {
    if es == [] then m
    else
      var st := StatementOf(s, es[0]);
      Accounts(if st.Some? then Account(m, s.db, st.value) else m, Next(s, es[0]), es[1..])
  }

  /** An event changes the tables by the one statement it issues, if any, and that is a legal one. */
  lemma EventIsItsStatement(s: System, e: Event)
    requires Inv(s) && Enabled(s, e)
    ensures var st := StatementOf(s, e);
            && Next(s, e).db == (if st.Some? then Run(s.db, st.value) else s.db)
            && (st.Some? ==> Legal(s.db, s.used, s.clock.app, st.value))
  {
    if e.Step? {
      assert PcOk(s.db, s.clock, s.used, s.procs[e.h]);
      IssuesLegalStatements(s.db, s.clock, s.used, s.procs[e.h], e.choice);
    }
  }

  lemma EventKeepsAccounts(s: System, e: Event)
    requires Inv(s) && Enabled(s, e)
    ensures var st := StatementOf(s, e);
            Current(Next(s, e).db) == if st.Some? then Account(Current(s.db), s.db, st.value) else Current(s.db)
  {
    EventIsItsStatement(s, e);
    if StatementOf(s, e).Some? {
      StatementsKeepAccounts(s.db, s.used, s.clock.app, StatementOf(s, e).value);
    }
  }

  /** Refinement over whole runs: the map kept by its own rules is at every point the table's
      current streams. */
  lemma {:induction false} RunKeepsAccounts(s: System, es: seq<Event>)
    requires Inv(s) && Feasible(s, es)
    ensures Accounts(Current(s.db), s, es) == Current(After(s, es).db)
    decreases |es|
  {
    if es != [] {
      EventKeepsAccounts(s, es[0]);
      NextKeepsInv(s, es[0]);
      RunKeepsAccounts(Next(s, es[0]), es[1..]);
    }
  }

  // ---------------------------------------------------------------- starts and ends, counted

  ghost predicate Starts(t: Tables, st: Statement, k: Uuid) {
    st.InsertStream? && st.stream.keyId == k && Succeeds(t, st)
  }

  ghost predicate Stops(t: Tables, st: Statement, k: Uuid) {
    match st
    case EndStream(sid, _) => LiveFor(t, sid, k)
    case EndStreamByPath(path, _) => exists sid :: LiveFor(t, sid, k) && t.streams[sid].path == path
    case _ => false
  }

  /** How often a stream was successfully started on key `k` in a run. */
  ghost function Started(s: System, es: seq<Event>, k: Uuid): nat
    requires Feasible(s, es)
    decreases |es|
  {
    if es == [] then 0
    else
      var st := StatementOf(s, es[0]);
      (if st.Some? && Starts(s.db, st.value, k) then 1 else 0) + Started(Next(s, es[0]), es[1..], k)
  }

  /** How often a stream of key `k` was successfully ended in a run. */
  ghost function Stopped(s: System, es: seq<Event>, k: Uuid): nat
    requires Feasible(s, es)
    decreases |es|
  {
    if es == [] then 0
    else
      var st := StatementOf(s, es[0]);
      (if st.Some? && Stops(s.db, st.value, k) then 1 else 0) + Stopped(Next(s, es[0]), es[1..], k)
  }

  ghost function Active(t: Tables, k: Uuid): set<Uuid> {
    set sid | sid in t.streams && LiveFor(t, sid, k)
  }

  ghost function Occupied(t: Tables, k: Uuid): nat {
    if InUse(t, k) then 1 else 0
  }

  lemma OccupiedCountsActive(t: Tables, k: Uuid)
    requires OneActivePerKey(t)
    ensures |Active(t, k)| == Occupied(t, k)
  {
    if InUse(t, k) {
      var sid: Uuid :| LiveFor(t, sid, k);
      assert Active(t, k) == {sid};
    } else {
      assert Active(t, k) == {};
    }
  }

  /** One statement changes a surviving key's occupancy by its starts less its stops. */
  lemma StatementBalances(t: Tables, used: set<Uuid>, now: Instant, st: Statement, k: Uuid)
    requires Constraints(t) && Coherent(t) && IdsUsed(t, used) && Legal(t, used, now, st)
    requires k in Run(t, st).keys
    ensures Occupied(Run(t, st), k)
            == Occupied(t, k) + (if Starts(t, st, k) then 1 else 0) - (if Stops(t, st, k) then 1 else 0)
  {
    StatementsKeepAccounts(t, used, now, st);
    RunKeepsConstraints(t, st);
    var u := Run(t, st);
    OccupiedIsCurrent(t, k);
    OccupiedIsCurrent(u, k);
    StopsIsCurrent(t, st, k);
    assert k in t.keys || !InUse(t, k);
  }

  lemma OccupiedIsCurrent(t: Tables, k: Uuid)
    requires ForeignKeys(t)
    ensures InUse(t, k) <==> k in Current(t)
  {
  }

  /** On the map, a stop of `k` is an end that names the stream or the path of an occupied `k`. */
  lemma StopsIsCurrent(t: Tables, st: Statement, k: Uuid)
    requires Constraints(t) && Coherent(t)
    ensures Stops(t, st, k) <==>
            k in Current(t) &&
            match st
            case EndStream(sid, _) => Current(t)[k] == sid
            case EndStreamByPath(path, _) => t.keys[k].keyValue == path
            case _ => false
  {
    if k in Current(t) {
      CurrentIs(t, k, Current(t)[k]);
    }
    if st.EndStream? {
      CurrentIs(t, k, st.id);
    }
  }

  /** Over every run, in every interleaving: for a key that survives, starts less stops is the
      change in its occupancy. */
  lemma {:induction false} RunBalances(s: System, es: seq<Event>, k: Uuid)
    requires Inv(s) && Feasible(s, es) && k in After(s, es).db.keys
    requires k in s.used ==> k in s.db.keys
    ensures Started(s, es, k) - Stopped(s, es, k) == Occupied(After(s, es).db, k) - Occupied(s.db, k)
    decreases |es|
  {
    if es != [] {
      var s1 := Next(s, es[0]);
      NextKeepsInv(s, es[0]);
      RunKeepsInv(s1, es[1..]);
      var st := StatementOf(s, es[0]);
      if k in s1.db.keys {
        EventBalances(s, es[0], k);
        RunBalances(s1, es[1..], k);
      } else {
        assert k !in s1.used;
        NoStreamWithoutKey(s.db, if st.Some? then st.value else DeleteBroadcaster(k), k);
        NoStreamWithoutKey(s1.db, DeleteBroadcaster(k), k);
        RunBalances(s1, es[1..], k);
      }
    }
  }

  lemma EventBalances(s: System, e: Event, k: Uuid)
    requires Inv(s) && Enabled(s, e) && k in Next(s, e).db.keys
    ensures var st := StatementOf(s, e);
            Occupied(Next(s, e).db, k)
            == Occupied(s.db, k)
               + (if st.Some? && Starts(s.db, st.value, k) then 1 else 0)
               - (if st.Some? && Stops(s.db, st.value, k) then 1 else 0)
  {
    EventIsItsStatement(s, e);
    if StatementOf(s, e).Some? {
      StatementBalances(s.db, s.used, s.clock.app, StatementOf(s, e).value, k);
    }
  }

  lemma NoStreamWithoutKey(t: Tables, st: Statement, k: Uuid)
    requires ForeignKeys(t) && k !in t.keys
    ensures !Starts(t, st, k) && !Stops(t, st, k) && Occupied(t, k) == 0
  {
  }

  /** From the empty database, for every key that now exists: starts less stops is 0 or 1 and is
      the number of its active rows. */
  lemma StartsLessStops(es: seq<Event>, k: Uuid)
    requires Feasible(INITIAL, es) && k in After(INITIAL, es).db.keys
    ensures var n := Started(INITIAL, es, k) - Stopped(INITIAL, es, k);
            0 <= n <= 1 && n == |Active(After(INITIAL, es).db, k)|
  {
    ReachableInv(es);
    RunBalances(INITIAL, es, k);
    OccupiedCountsActive(After(INITIAL, es).db, k);
  }
}
