/** The interleaved, locked, multi-statement Authenticate looks to everyone else like one atomic
    step, and the stored status `expired` like no more than the clock.

    The specification machine has no locks and no transactions: an authentication waits, is decided
    in one step on the tables and the clock of one moment, and is answered.  All other handlers
    run in it exactly as they do in the system. */
module Refinement {
  import opened Domain
  import opened Schema
  import opened Statements
  import opened KeyText
  import opened Verdicts
  import opened Protocol
  import opened Evolution
  import opened Invariant

  datatype SpecPc =
    | Waiting(req: AuthRequest, since: Clock)
    | Decided(req: AuthRequest, verdict: Verdict)
    | Answered(req: AuthRequest, answer: Option<Verdict>)
    | Other(pc: Pc)

  datatype Spec = Spec(db: Tables, clock: Clock, used: set<Uuid>, procs: map<Handler, SpecPc>)

  /** One atomic authentication: the verdict on the tables as they are, with readings of both
      clocks taken between the request's arrival and now, and the verdict's effect. */
  ghost predicate Decision(mode: Mode, t: Tables, now: Clock, req: AuthRequest, since: Clock,
                           verdict: Verdict, u: Tables)
  {
    exists reading: Instant, txTime: Instant ::
      DecisionAt(mode, t, now, req, since, verdict, u, reading, txTime)
  }

  ghost predicate DecisionAt(mode: Mode, t: Tables, now: Clock, req: AuthRequest, since: Clock,
                             verdict: Verdict, u: Tables, reading: Instant, txTime: Instant)
  {
    && since.app <= reading <= now.app
    && since.db <= txTime <= now.db
    && verdict == Judge(t, req, reading)
    && u == Settle(mode, t, req, verdict, txTime)
  }

  /** Where expiry is a matter of time alone, Revoke may or may not refuse a key past its expiry. */
  ghost predicate MayRefuse(mode: Mode, a: Spec, pc: Pc) {
    && mode == TimeOnly && pc.RevStart?
    && pc.id in a.db.keys && a.db.keys[pc.id].PastExpiry(a.clock.app)
  }

  /** How an authentication moves: it is decided (and perhaps answered), or is answered with what was
      decided.  It ends in an error, or loses the answer, only when something went wrong. */
  ghost predicate AuthMove(mode: Mode, t: Tables, now: Clock, outcome: Outcome, p: SpecPc, q: SpecPc, u: Tables) {
    match p
    case Waiting(req, since) =>
      || (outcome != Fine && q == Answered(req, None) && u == t)
      || (q.Decided? && q.req == req && Decision(mode, t, now, req, since, q.verdict, u))
      || (q.Answered? && q.req == req && q.answer.Some? && Decision(mode, t, now, req, since, q.answer.value, u))
    case Decided(req, v) =>
      q == Answered(req, if outcome == Fine then Some(v) else None) && u == t
    case _ => false
  }

  ghost predicate OtherMove(mode: Mode, a: Spec, c: Choice, pc: Pc, q: SpecPc, u: Tables) {
    && !Finished(pc)
    && !Authenticating(pc)
    && var m := Advance(a.db, a.clock, pc, c);
       || (q == Other(m.next) && u == TablesAfter(a.db, m.effect))
       || (MayRefuse(mode, a, pc) && q == Other(RevRefused(pc.id, InvalidStatus)) && u == a.db)
  }

  ghost predicate SpecStep(mode: Mode, a: Spec, b: Spec, h: Handler, c: Choice) {
    && h in a.procs && c.newId !in a.used && |c.random| == ENTROPY
    && b.clock == a.clock && b.used == a.used + {c.newId}
    && h in b.procs && b.procs == a.procs[h := b.procs[h]]
    && match a.procs[h]
       case Other(pc) => OtherMove(mode, a, c, pc, b.procs[h], b.db)
       case _ => AuthMove(mode, a.db, a.clock, c.outcome, a.procs[h], b.procs[h], b.db)
  }

  function SpecStart(call: Call, now: Clock): SpecPc {
    match call
    case CallAuthenticate(req) => Waiting(req, now)
    case _ => Other(Start(call, now))
  }

  ghost predicate SpecArrive(a: Spec, b: Spec, h: Handler, call: Call) {
    h !in a.procs && b == a.(procs := a.procs[h := SpecStart(call, a.clock)])
  }

  /** The specification machine's own step for an event of the system; of a handler's steps, some
      do nothing but use up an identifier. */
  ghost predicate SpecNext(mode: Mode, a: Spec, e: Event, b: Spec) {
    match e
    case Tick(to) => a.clock.NotAfter(to) && b == a.(clock := to)
    case Arrive(h, call) => SpecArrive(a, b, h, call)
    case Step(h, c) => b == a.(used := a.used + {c.newId}) || SpecStep(mode, a, b, h, c)
  }

  // ---------------------------------------------------------------- the refinement mapping

  /** An authentication counts as decided from the moment its outcome can no longer change: at
      the lock for a refusal that writes nothing, at COMMIT for the others. */
  function SeenAs(pc: Pc): SpecPc {
    match pc
    case AuthStart(req, since) => Waiting(req, since)
    case AuthBegun(tx) => Waiting(tx.req, tx.since)
    case AuthLocked(tx, _, _) => Waiting(tx.req, tx.since)
    case AuthExpiring(tx, _, _, _) => Waiting(tx.req, tx.since)
    case AuthChecking(tx, _, _, _) => Waiting(tx.req, tx.since)
    case AuthTouching(tx, _, _, _) => Waiting(tx.req, tx.since)
    case AuthCommitExpired(tx, _, _, _) => Waiting(tx.req, tx.since)
    case AuthCommitTouch(tx, _, _, _) => Waiting(tx.req, tx.since)
    case AuthClosing(tx, _, verdict) => Decided(tx.req, verdict)
    case AuthDecided(req, verdict) => Decided(req, verdict)
    case AuthReturned(req, answer) => Answered(req, answer)
    case _ => Other(pc)
  }

  ghost function Abstract(s: System): Spec {
    Spec(s.db, s.clock, s.used, map h | h in s.procs :: SeenAs(s.procs[h]))
  }

  // ---------------------------------------------------------------- atomicity

  /** The step of an authentication either leaves it as it looked, or is the one that decides or
      answers it. */
  lemma AuthStepRefines(t: Tables, now: Clock, used: set<Uuid>, pc: Pc, c: Choice)
    requires Constraints(t) && PcOk(t, now, used, pc) && Authenticating(pc) && !Finished(pc)
    ensures var m := Advance(t, now, pc, c);
            var u := TablesAfter(t, m.effect);
            || (SeenAs(m.next) == SeenAs(pc) && u == t)
            || AuthMove(Materialising, t, now, c.outcome, SeenAs(pc), SeenAs(m.next), u)
  {
    if pc.AuthCommitExpired? || pc.AuthCommitTouch? {
      CommitDecides(t, now, used, pc, c);
    } else if pc.AuthLocked? || pc.AuthChecking? {
      UnderLockRefines(t, now, used, pc, c);
    } else if Advance(t, now, pc, c).next.AuthClosing? || (pc.AuthStart? && EarlyVerdict(pc.req).Some?) {
      DecidedNow(t, now, SeenAs(pc).req, SeenAs(pc).since, t, now.app, now.db);
    }
  }

  /** Under the lock, only a refusal decides anything: its verdict is the tables' own at that moment. */
  lemma UnderLockRefines(t: Tables, now: Clock, used: set<Uuid>, pc: Pc, c: Choice)
    requires Constraints(t) && PcOk(t, now, used, pc)
    requires pc.AuthLocked? || pc.AuthChecking?
    ensures var m := Advance(t, now, pc, c);
            var u := TablesAfter(t, m.effect);
            || (SeenAs(m.next) == SeenAs(pc) && u == t)
            || AuthMove(Materialising, t, now, c.outcome, SeenAs(pc), SeenAs(m.next), u)
  {
    var m := Advance(t, now, pc, c);
    KeyByValueIs(t, pc.k);
    if m.next.AuthClosing? {
      var reading := if pc.AuthLocked? then now.app else pc.reading;
      if t.keys[pc.k].status == KeyExpired { MarkingTwice(t, pc.k); }
      DecidedNow(t, now, pc.tx.req, pc.tx.since, t, reading, now.db);
    }
  }

  /** At COMMIT the row read under the lock is still the row, so the verdict is that of the tables
      as they are, at the moment the clock was read. */
  lemma CommitDecides(t: Tables, now: Clock, used: set<Uuid>, pc: Pc, c: Choice)
    requires Constraints(t) && PcOk(t, now, used, pc)
    requires pc.AuthCommitExpired? || pc.AuthCommitTouch?
    ensures var m := Advance(t, now, pc, c);
            AuthMove(Materialising, t, now, c.outcome, SeenAs(pc), SeenAs(m.next), TablesAfter(t, m.effect))
  {
    KeyByValueIs(t, pc.k);
    if pc.AuthCommitExpired? {
      ExpiryCommitDecides(t, now, pc, c);
    } else {
      TouchCommitDecides(t, now, pc, c);
    }
  }

  lemma ExpiryCommitDecides(t: Tables, now: Clock, pc: Pc, c: Choice)
    requires pc.AuthCommitExpired? && TxOk(pc.tx, now) && ReadStillTrue(t, pc.tx, pc.k, pc.key)
    requires ReadingOk(pc.tx, pc.reading, now) && pc.key.status == KeyActive && pc.key.PastExpiry(pc.reading)
    requires KeyByValue(t, pc.key.keyValue) == Some(pc.k)
    ensures var m := Advance(t, now, pc, c);
            AuthMove(Materialising, t, now, c.outcome, SeenAs(pc), SeenAs(m.next), TablesAfter(t, m.effect))
  {
    if c.outcome != Refused {
      DecidedNow(t, now, pc.tx.req, pc.tx.since, Run(t, MarkExpired(pc.k)), pc.reading, pc.tx.begunAt);
    }
  }

  lemma TouchCommitDecides(t: Tables, now: Clock, pc: Pc, c: Choice)
    requires pc.AuthCommitTouch? && TxOk(pc.tx, now) && ReadStillTrue(t, pc.tx, pc.k, pc.key)
    requires ReadingOk(pc.tx, pc.reading, now) && pc.key.IsValid(pc.reading) && !InUse(t, pc.k)
    requires KeyByValue(t, pc.key.keyValue) == Some(pc.k)
    ensures var m := Advance(t, now, pc, c);
            AuthMove(Materialising, t, now, c.outcome, SeenAs(pc), SeenAs(m.next), TablesAfter(t, m.effect))
  {
    if c.outcome != Refused {
      DecidedNow(t, now, pc.tx.req, pc.tx.since, Run(t, TouchLastUsed(pc.k, pc.tx.begunAt)), pc.reading, pc.tx.begunAt);
    }
  }

  lemma DecidedNow(t: Tables, now: Clock, req: AuthRequest, since: Clock, u: Tables, reading: Instant, txTime: Instant)
    requires since.app <= reading <= now.app && since.db <= txTime <= now.db
    requires u == Settle(Materialising, t, req, Judge(t, req, reading), txTime)
    ensures Decision(Materialising, t, now, req, since, Judge(t, req, reading), u)
  {
    assert DecisionAt(Materialising, t, now, req, since, Judge(t, req, reading), u, reading, txTime);
  }

  /** Every event of the system is a step of the machine in which Authenticate is atomic. */
  lemma AuthenticateIsAtomic(s: System, e: Event)
    requires Inv(s) && Enabled(s, e)
    ensures SpecNext(Materialising, Abstract(s), e, Abstract(Next(s, e)))
  {
    var a, b := Abstract(s), Abstract(Next(s, e));
    match e
    case Tick(to) =>
    case Arrive(h, call) =>
      assert b.procs == a.procs[h := SpecStart(call, a.clock)];
      assert SpecArrive(a, b, h, call);
    case Step(h, c) =>
      assert PcOk(s.db, s.clock, s.used, s.procs[h]);
      StepIsSpecStep(s, h, c);
  }

  lemma StepIsSpecStep(s: System, h: Handler, c: Choice)
    requires Inv(s) && Enabled(s, Step(h, c))
    ensures var a, b := Abstract(s), Abstract(Next(s, Step(h, c)));
            b == a.(used := a.used + {c.newId}) || SpecStep(Materialising, a, b, h, c)
  {
    var a, b := Abstract(s), Abstract(Next(s, Step(h, c)));
    var pc := s.procs[h];
    assert PcOk(s.db, s.clock, s.used, pc);
    var m := Advance(s.db, s.clock, pc, c);
    assert b.procs == a.procs[h := SeenAs(m.next)];
    if Authenticating(pc) {
      AuthStepRefines(s.db, s.clock, s.used, pc, c);
      if b.procs[h] == a.procs[h] {
        assert b.procs == a.procs;
      }
    } else {
      OthersStayOthers(s.db, s.clock, pc, c);
    }
  }

  lemma OthersStayOthers(t: Tables, now: Clock, pc: Pc, c: Choice)
    requires !Authenticating(pc) && !Finished(pc)
    ensures SeenAs(pc) == Other(pc)
    ensures SeenAs(Advance(t, now, pc, c).next) == Other(Advance(t, now, pc, c).next)
  {
  }

  // ---------------------------------------------------------------- expiry by time alone

  /** The tables with no expiry recorded in them. */
  ghost function Unexpired(t: Tables): Tables {
    t.(keys := map k | k in t.keys ::
         if t.keys[k].status == KeyExpired then t.keys[k].(status := KeyActive) else t.keys[k])
  }

  ghost function Timeless(a: Spec): Spec {
    a.(db := Unexpired(a.db))
  }

  lemma UnexpiredLookups(t: Tables, v: string, k: Uuid)
    requires Constraints(t)
    ensures KeyByValue(Unexpired(t), v) == KeyByValue(t, v)
    ensures StreamOfKey(Unexpired(t), k) == StreamOfKey(t, k)
    ensures InUse(Unexpired(t), k) <==> InUse(t, k)
  {
    var u := Unexpired(t);
    assert forall k' :: k' in u.keys <==> k' in t.keys && u.keys[k'].keyValue == t.keys[k'].keyValue;
    match KeyByValue(t, v) {
      case Some(x) => KeyByValueIs(t, x); KeyByValueIs(u, x);
      case None =>
    }
    assert forall sid :: LiveFor(u, sid, k) <==> LiveFor(t, sid, k);
    match StreamOfKey(t, k) {
      case Some(sid) => StreamOfKeyIs(t, sid, k); StreamOfKeyIs(u, sid, k);
      case None =>
    }
  }

  /** No statement but the expiry write itself can tell recorded expiry from unrecorded. */
  lemma UnexpiredRun(t: Tables, st: Statement)
    requires Constraints(t)
    requires !st.MarkExpired?
    requires st.UpdateStatus? ==> st.status != KeyExpired
    requires st.InsertKey? ==> st.key.status != KeyExpired
    ensures Succeeds(Unexpired(t), st) <==> Succeeds(t, st)
    ensures Run(Unexpired(t), st) == Unexpired(Run(t, st))
  {
    UnexpiredSucceeds(t, st);
    UnexpiredRunKeys(t, st);
    UnexpiredRunStreams(t, st);
    assert Run(Unexpired(t), st).broadcasters == Unexpired(Run(t, st)).broadcasters;
  }

  lemma UnexpiredRunKeys(t: Tables, st: Statement)
    requires Succeeds(Unexpired(t), st) <==> Succeeds(t, st)
    requires !st.MarkExpired?
    requires st.UpdateStatus? ==> st.status != KeyExpired
    requires st.InsertKey? ==> st.key.status != KeyExpired
    ensures Run(Unexpired(t), st).keys == Unexpired(Run(t, st)).keys
  {
  }

  lemma UnexpiredRunStreams(t: Tables, st: Statement)
    requires Succeeds(Unexpired(t), st) <==> Succeeds(t, st)
    ensures Run(Unexpired(t), st).streams == Run(t, st).streams
  {
    if st.DeleteBroadcaster? {
      assert forall k :: OwnedBy(Unexpired(t), k, st.id) <==> OwnedBy(t, k, st.id);
    }
  }

  lemma UnexpiredSucceeds(t: Tables, st: Statement)
    requires Constraints(t)
    ensures Succeeds(Unexpired(t), st) <==> Succeeds(t, st)
  {
    var u := Unexpired(t);
    match st
    case InsertKey(_, key) => UnexpiredLookups(t, key.keyValue, 0);
    case InsertStream(_, row) => UnexpiredLookups(t, "", row.keyId);
    case EndStreamByPath(path, _) => assert forall sid :: LiveAt(u, sid, path) <==> LiveAt(t, sid, path);
    case _ =>
  }

  lemma UnexpiredMark(t: Tables, k: Uuid)
    requires k in t.keys && t.keys[k].status != KeyRevoked
    ensures Unexpired(Run(t, MarkExpired(k))) == Unexpired(t)
  {
    assert Unexpired(Run(t, MarkExpired(k))).keys == Unexpired(t).keys;
  }

  /** A decision made with recorded expiry is one that time alone makes too, with the same verdict. */
  lemma DecisionByTimeAlone(t: Tables, now: Clock, req: AuthRequest, since: Clock, v: Verdict, u: Tables)
    requires Constraints(t) && ExpiredIsPast(t, now.app)
    requires Decision(Materialising, t, now, req, since, v, u)
    ensures Decision(TimeOnly, Unexpired(t), now, req, since, v, Unexpired(u))
  {
    var reading: Instant, txTime: Instant :| DecisionAt(Materialising, t, now, req, since, v, u, reading, txTime);
    var found := KeyByValue(t, Presented(req));
    var stored := found.Some? && t.keys[found.value].status == KeyExpired;
    var reading' := if stored then now.app else reading;
    JudgeByTimeAlone(t, req, reading, reading', now.app);
    SettleByTimeAlone(t, req, v, reading, txTime);
    assert DecisionAt(TimeOnly, Unexpired(t), now, req, since, v, Unexpired(u), reading', txTime);
  }

  lemma JudgeByTimeAlone(t: Tables, req: AuthRequest, reading: Instant, reading': Instant, now: Instant)
    requires Constraints(t) && ExpiredIsPast(t, now)
    requires var found := KeyByValue(t, Presented(req));
             reading' == if found.Some? && t.keys[found.value].status == KeyExpired then now else reading
    ensures Judge(Unexpired(t), req, reading') == Judge(t, req, reading)
  {
    var found := KeyByValue(t, Presented(req));
    UnexpiredLookups(t, Presented(req), if found.Some? then found.value else 0);
  }

  lemma SettleByTimeAlone(t: Tables, req: AuthRequest, v: Verdict, reading: Instant, txTime: Instant)
    requires Constraints(t) && v == Judge(t, req, reading)
    ensures Settle(TimeOnly, Unexpired(t), req, v, txTime) == Unexpired(Settle(Materialising, t, req, v, txTime))
  {
    if v.Authenticated? {
      UnexpiredRun(t, TouchLastUsed(v.keyId, txTime));
    } else if v == ExpiredKey {
      UnexpiredMark(t, KeyByValue(t, Presented(req)).value);
    }
  }

  lemma AuthMoveByTimeAlone(t: Tables, now: Clock, outcome: Outcome, p: SpecPc, q: SpecPc, u: Tables)
    requires Constraints(t) && ExpiredIsPast(t, now.app)
    requires AuthMove(Materialising, t, now, outcome, p, q, u)
    ensures AuthMove(TimeOnly, Unexpired(t), now, outcome, p, q, Unexpired(u))
  {
    if p.Waiting? && q.Decided? {
      DecisionByTimeAlone(t, now, p.req, p.since, q.verdict, u);
    } else if p.Waiting? && q.Answered? && q.answer.Some? {
      if Decision(Materialising, t, now, p.req, p.since, q.answer.value, u) {
        DecisionByTimeAlone(t, now, p.req, p.since, q.answer.value, u);
      }
    }
  }

  lemma OtherMoveByTimeAlone(a: Spec, pc: Pc, c: Choice)
    requires Constraints(a.db) && ExpiredIsPast(a.db, a.clock.app)
    requires PcOk(a.db, a.clock, a.used, pc) && !Authenticating(pc) && !Finished(pc)
    ensures var m := Advance(a.db, a.clock, pc, c);
            OtherMove(TimeOnly, Timeless(a), c, pc, Other(m.next), Unexpired(TablesAfter(a.db, m.effect)))
  {
    var m := Advance(a.db, a.clock, pc, c);
    if pc.RevFound? {
      UnexpiredLookups(a.db, "", pc.id);
    } else if pc.RdyStart? {
      UnexpiredLookups(a.db, pc.path, 0);
    } else if !pc.RevStart? {
      EffectByTimeAlone(a.db, a.clock, a.used, pc, c);
      ExecByTimeAlone(a.db, a.clock, pc, c);
    }
  }

  lemma EffectByTimeAlone(t: Tables, now: Clock, used: set<Uuid>, pc: Pc, c: Choice)
    requires Constraints(t) && PcOk(t, now, used, pc) && !Authenticating(pc) && !Finished(pc)
    ensures var effect := Advance(t, now, pc, c).effect;
            TablesAfter(Unexpired(t), effect) == Unexpired(TablesAfter(t, effect))
  {
    var effect := Advance(t, now, pc, c).effect;
    if effect.Write? {
      UnexpiredRun(t, effect.statement);
    }
  }

  lemma ExecByTimeAlone(t: Tables, now: Clock, pc: Pc, c: Choice)
    requires Constraints(t) && !Authenticating(pc) && !Finished(pc)
    requires !pc.RevStart? && !pc.RevFound? && !pc.RdyStart?
    ensures Advance(Unexpired(t), now, pc, c) == Advance(t, now, pc, c)
  {
    var m := Advance(t, now, pc, c);
    if m.effect.Write? {
      UnexpiredSucceeds(t, m.effect.statement);
    }
  }

  /** Every event of the system is also a step of the machine in which keys expire by time alone,
      with the same answers to every authentication. */
  lemma ExpiryIsTimeAlone(s: System, e: Event)
    requires Inv(s) && Enabled(s, e)
    ensures SpecNext(TimeOnly, Timeless(Abstract(s)), e, Timeless(Abstract(Next(s, e))))
  {
    var a, b := Timeless(Abstract(s)), Timeless(Abstract(Next(s, e)));
    match e
    case Tick(to) =>
    case Arrive(h, call) =>
      assert b.procs == a.procs[h := SpecStart(call, a.clock)];
      assert SpecArrive(a, b, h, call);
    case Step(h, c) =>
      assert PcOk(s.db, s.clock, s.used, s.procs[h]);
      StepIsTimelessStep(s, h, c);
  }

  lemma StepIsTimelessStep(s: System, h: Handler, c: Choice)
    requires Inv(s) && Enabled(s, Step(h, c))
    ensures var a, b := Timeless(Abstract(s)), Timeless(Abstract(Next(s, Step(h, c))));
            b == a.(used := a.used + {c.newId}) || SpecStep(TimeOnly, a, b, h, c)
  {
    var a, b := Timeless(Abstract(s)), Timeless(Abstract(Next(s, Step(h, c))));
    var pc := s.procs[h];
    assert PcOk(s.db, s.clock, s.used, pc);
    var m := Advance(s.db, s.clock, pc, c);
    assert b.procs == a.procs[h := SeenAs(m.next)];
    if Authenticating(pc) {
      AuthStepByTimeAlone(s.db, s.clock, s.used, pc, c);
      if b.procs[h] == a.procs[h] {
        assert b.procs == a.procs;
      }
    } else {
      OthersStayOthers(s.db, s.clock, pc, c);
      OtherMoveByTimeAlone(Abstract(s), pc, c);
    }
  }

  lemma AuthStepByTimeAlone(t: Tables, now: Clock, used: set<Uuid>, pc: Pc, c: Choice)
    requires Constraints(t) && ExpiredIsPast(t, now.app)
    requires PcOk(t, now, used, pc) && Authenticating(pc) && !Finished(pc)
    ensures var m := Advance(t, now, pc, c);
            var u := TablesAfter(t, m.effect);
            || (SeenAs(m.next) == SeenAs(pc) && u == t)
            || AuthMove(TimeOnly, Unexpired(t), now, c.outcome, SeenAs(pc), SeenAs(m.next), Unexpired(u))
  {
    var m := Advance(t, now, pc, c);
    var u := TablesAfter(t, m.effect);
    AuthStepRefines(t, now, used, pc, c);
    if AuthMove(Materialising, t, now, c.outcome, SeenAs(pc), SeenAs(m.next), u) {
      AuthMoveByTimeAlone(t, now, c.outcome, SeenAs(pc), SeenAs(m.next), u);
    }
  }

  // ---------------------------------------------------------------- whole runs

  /** What a run looks like, state by state, in the specification machine. */
  ghost function View(mode: Mode, s: System): Spec {
    if mode == Materialising then Abstract(s) else Timeless(Abstract(s))
  }

  ghost function Views(mode: Mode, s: System, es: seq<Event>): seq<Spec>
    requires Feasible(s, es)
    decreases |es|
  {
    [View(mode, s)] + if es == [] then [] else Views(mode, Next(s, es[0]), es[1..])
  }

  /** The machine can go through `views` by the events `es`, one each. */
  ghost predicate SpecRun(mode: Mode, views: seq<Spec>, es: seq<Event>) {
    |views| == |es| + 1 && forall i :: 0 <= i < |es| ==> SpecNext(mode, views[i], es[i], views[i + 1])
  }

  /** Refinement, in both modes: any interleaving of any handlers is a run of the specification
      machine by the same events, in which each authentication is decided in a single step, and ends in
      an error only at a step of its own that went wrong. */
  lemma {:induction false} EveryRunRefines(mode: Mode, s: System, es: seq<Event>)
    requires Inv(s) && Feasible(s, es)
    ensures SpecRun(mode, Views(mode, s, es), es) && Views(mode, s, es)[0] == View(mode, s)
    decreases |es|
  {
    if es != [] {
      var s1 := Next(s, es[0]);
      NextKeepsInv(s, es[0]);
      EveryRunRefines(mode, s1, es[1..]);
      EventRefines(mode, s, es[0]);
    }
  }

  lemma EventRefines(mode: Mode, s: System, e: Event)
    requires Inv(s) && Enabled(s, e)
    ensures SpecNext(mode, View(mode, s), e, View(mode, Next(s, e)))
  {
    if mode == Materialising {
      AuthenticateIsAtomic(s, e);
    } else {
      ExpiryIsTimeAlone(s, e);
    }
  }

  /** While an Authenticate that will let its caller in is between its read of the active stream
      and its commit, its key is valid at the time it read and has no active stream. */
  lemma AdmissionIsExclusive(es: seq<Event>, h: Handler)
    requires Feasible(INITIAL, es)
    requires h in After(INITIAL, es).procs
    ensures var s := After(INITIAL, es);
            match s.procs[h]
            case AuthTouching(tx, k, key, reading) =>
              k in s.db.keys && s.db.keys[k].IsValid(reading) && !InUse(s.db, k)
              && s.db.keys[k].keyValue == Presented(tx.req)
            case AuthCommitTouch(tx, k, key, reading) =>
              k in s.db.keys && s.db.keys[k].IsValid(reading) && !InUse(s.db, k)
              && s.db.keys[k].keyValue == Presented(tx.req)
            case _ => true
  {
    ReachableInv(es);
    var s := After(INITIAL, es);
    assert PcOk(s.db, s.clock, s.used, s.procs[h]);
  }
}
