/** Recording that a key has expired: what undoes it, and why it takes the row lock. */
module RecordedExpiry {
  import opened Domain
  import opened Schema
  import opened Statements
  import opened KeyText
  import opened Verdicts
  import opened Protocol
  import opened Evolution
  import opened Invariant
  import opened Progress
  import opened RevokeRaces

  /** Key `k` is recorded as expired or gone, and no Revoke has found it active before that. */
  ghost predicate SettledExpired(s: System, k: Uuid) {
    && k in s.used
    && (k in s.db.keys ==> s.db.keys[k].status == KeyExpired)
    && forall h :: h in s.procs ==> !Underway(s.procs[h], k)
  }

  lemma SettledExpiredMove(t: Tables, now: Clock, pc: Pc, c: Choice, k: Uuid)
    requires !Finished(pc) && !Underway(pc, k)
    requires k in t.keys ==> t.keys[k].status == KeyExpired
    ensures var m := Advance(t, now, pc, c);
            && !Underway(m.next, k)
            && (Issued(m.effect).Some? && Issued(m.effect).value.UpdateStatus? ==> Issued(m.effect).value.id != k)
  {
  }

  lemma ExpiredUntilUpdated(t: Tables, st: Statement, k: Uuid)
    requires k in t.keys && t.keys[k].status == KeyExpired
    requires st.UpdateStatus? ==> st.id != k
    ensures k in Run(t, st).keys ==> Run(t, st).keys[k].status == KeyExpired
  {
  }

  lemma SettledExpiredStep(s: System, g: Handler, c: Choice, k: Uuid)
    requires Enabled(s, Step(g, c)) && SettledExpired(s, k)
    requires k in Next(s, Step(g, c)).db.keys ==> k in s.db.keys
    ensures SettledExpired(Next(s, Step(g, c)), k)
  {
    SettledExpiredMove(s.db, s.clock, s.procs[g], c, k);
    var issued := Issued(Advance(s.db, s.clock, s.procs[g], c).effect);
    if issued.Some? && k in s.db.keys {
      ExpiredUntilUpdated(s.db, issued.value, k);
    }
  }

  lemma SettledExpiredLasts(s: System, e: Event, k: Uuid)
    requires Enabled(s, e) && Evolves(s, Next(s, e)) && SettledExpired(s, k)
    ensures SettledExpired(Next(s, e), k)
  {
    match e
    case Tick(_) =>
    case Arrive(_, _) =>
    case Step(g, c) => SettledExpiredStep(s, g, c, k);
  }

  lemma {:induction false} SettledExpiredForever(s: System, es: seq<Event>, k: Uuid)
    requires Inv(s) && Feasible(s, es) && SettledExpired(s, k)
    ensures SettledExpired(After(s, es), k)
    decreases |es|
  {
    if es != [] {
      NextKeepsInv(s, es[0]);
      SettledExpiredLasts(s, es[0], k);
      SettledExpiredForever(Next(s, es[0]), es[1..], k);
    }
  }

  ghost predicate StaysExpired(s: System, k: Uuid) {
    forall es :: Feasible(s, es) && k in After(s, es).db.keys ==> After(s, es).db.keys[k].status == KeyExpired
  }

  /** The documentation shows `expired` as final.  Once recorded it is final, whatever arrives, exactly
      when no Revoke that found the key active is still under way. */
  lemma ExpiredIsFinalIff(s: System, k: Uuid)
    requires Inv(s) && k in s.db.keys && s.db.keys[k].status == KeyExpired
    ensures StaysExpired(s, k) <==> forall h :: h in s.procs ==> !Underway(s.procs[h], k)
  {
    if h :| h in s.procs && Underway(s.procs[h], k) {
      var es := UnderwayRevokesExpired(s, h, k);
    } else {
      forall es | Feasible(s, es) && k in After(s, es).db.keys ensures After(s, es).db.keys[k].status == KeyExpired {
        SettledExpiredForever(s, es, k);
      }
    }
  }

  /** The schedule that takes a key from expired to revoked. */
  lemma UnderwayRevokesExpired(s: System, h: Handler, k: Uuid) returns (es: seq<Event>)
    requires Inv(s) && k in s.db.keys && h in s.procs && Underway(s.procs[h], k)
    ensures Feasible(s, es) && NoArrivals(es)
    ensures k in After(s, es).db.keys && After(s, es).db.keys[k].status == KeyRevoked
  {
    var unlock := ReleaseLock(s, k);
    var finish := RevokeCanFinish(After(s, unlock), h, k);
    RunsCompose(s, unlock, finish);
    es := unlock + finish;
  }

  // ---------------------------------------------------------------- what the row lock is for

  /** The write that records an expiry, on a row that has meanwhile been revoked, breaks the agreement
      of status with revoked_at; on any other row it keeps it. */
  lemma ExpiryWriteIsSafeIffNotRevoked(t: Tables, k: Uuid)
    requires ForeignKeys(t) && Coherent(t) && k in t.keys
    ensures Coherent(Run(t, MarkExpired(k))) <==> t.keys[k].status != KeyRevoked
  {
    var u := Run(t, MarkExpired(k));
    assert u.keys[k] == t.keys[k].(status := KeyExpired);
  }

  /** The system in which Revoke's write of the status does not wait for the key's lock. */
  ghost predicate EnabledUnguarded(s: System, e: Event) {
    match e
    case Step(h, c) => Unfinished(s, h, c) && (Waits(s.db, s.locks, s.procs[h]) ==> s.procs[h].RevWriting?)
    case _ => Enabled(s, e)
  }

  ghost function NextUnguarded(s: System, e: Event): System
    requires EnabledUnguarded(s, e)
  {
    match e
    case Step(h, c) => Moved(s, h, c)
    case _ => Next(s, e)
  }

  ghost predicate FeasibleUnguarded(s: System, es: seq<Event>)
    decreases |es|
  {
    es == [] || (EnabledUnguarded(s, es[0]) && FeasibleUnguarded(NextUnguarded(s, es[0]), es[1..]))
  }

  ghost function AfterUnguarded(s: System, es: seq<Event>): System
    requires FeasibleUnguarded(s, es)
    decreases |es|
  {
    if es == [] then s else AfterUnguarded(NextUnguarded(s, es[0]), es[1..])
  }

  lemma UnguardedStarts(s: System, e: Event, rest: seq<Event>)
    requires EnabledUnguarded(s, e) && FeasibleUnguarded(NextUnguarded(s, e), rest)
    ensures FeasibleUnguarded(s, [e] + rest)
    ensures AfterUnguarded(s, [e] + rest) == AfterUnguarded(NextUnguarded(s, e), rest)
  {
    assert ([e] + rest)[1..] == rest;
  }

  /** Authenticate `g` is between reading active key `k`, past its expiry, and the COMMIT that records
      that; or about to read it. */
  ghost predicate Recording(s: System, g: Handler, k: Uuid) {
    && g in s.procs
    && match s.procs[g]
       case AuthBegun(tx) =>
         && KeyByValue(s.db, Presented(tx.req)) == Some(k) && k !in s.locks
         && s.db.keys[k].status == KeyActive && s.db.keys[k].PastExpiry(s.clock.app)
       case AuthLocked(_, k', key) => k' == k && key.status == KeyActive && key.PastExpiry(s.clock.app)
       case AuthExpiring(_, k', _, _) => k' == k
       case AuthCommitExpired(_, k', _, _) => k' == k
       case _ => false
  }

  lemma RecordingStep(s: System, g: Handler, k: Uuid) returns (c: Choice)
    requires Recording(s, g, k) && !s.procs[g].AuthCommitExpired?
    ensures EnabledUnguarded(s, Step(g, c))
    ensures var s' := NextUnguarded(s, Step(g, c));
            && Recording(s', g, k) && s'.db == s.db && s'.procs == s.procs[g := s'.procs[g]]
            && Left(s'.procs[g]) < Left(s.procs[g])
  {
    c := SomeChoice(s.used);
    EveryStepIsProgress(s.db, s.clock, s.procs[g], c);
  }

  lemma CommitAfterRevoke(s: System, g: Handler, h: Handler, k: Uuid) returns (es: seq<Event>)
    requires Recording(s, g, k) && s.procs[g].AuthCommitExpired? && k in s.db.keys
    requires h in s.procs && s.procs[h].RevWriting? && s.procs[h].id == k
    ensures FeasibleUnguarded(s, es)
    ensures var u := AfterUnguarded(s, es).db;
            k in u.keys && u.keys[k].status == KeyExpired && u.keys[k].revokedAt.Some?
  {
    var c := SomeChoice(s.used);
    var s1 := NextUnguarded(s, Step(h, c));
    assert s1.db == Run(s.db, UpdateStatus(k, KeyRevoked, Some(s.procs[h].at)));
    var d := SomeChoice(s1.used);
    var s2 := NextUnguarded(s1, Step(g, d));
    assert s2.db == Run(s1.db, MarkExpired(k));
    UnguardedStarts(s1, Step(g, d), []);
    UnguardedStarts(s, Step(h, c), [Step(g, d)] + []);
    es := [Step(h, c)] + ([Step(g, d)] + []);
  }

  /** Without that wait, whenever an Authenticate is about to read a key that has expired and a Revoke
      of the same key is about to write, the two can leave a row that is expired and has revoked_at. */
  lemma {:induction false} RevokeMustWait(s: System, g: Handler, h: Handler, k: Uuid) returns (es: seq<Event>)
    requires Recording(s, g, k) && k in s.db.keys
    requires h in s.procs && s.procs[h].RevWriting? && s.procs[h].id == k
    ensures FeasibleUnguarded(s, es) && !Coherent(AfterUnguarded(s, es).db)
    decreases Left(s.procs[g])
  {
    if s.procs[g].AuthCommitExpired? {
      es := CommitAfterRevoke(s, g, h, k);
    } else {
      var c := RecordingStep(s, g, k);
      var e := Step(g, c);
      var rest := RevokeMustWait(NextUnguarded(s, e), g, h, k);
      UnguardedStarts(s, e, rest);
      es := [e] + rest;
    }
  }
}
