/** What Revoke guarantees when other handlers run between its statements. */
module RevokeRaces {
  import opened Domain
  import opened Schema
  import opened Statements
  import opened KeyText
  import opened Verdicts
  import opened Protocol
  import opened Evolution
  import opened Invariant
  import opened Progress

  /** A Revoke that has read its key's active stream. */
  predicate HasLooked(pc: Pc, id: Uuid, stream: Option<Uuid>, seen: set<Uuid>) {
    match pc
    case RevKicking(id', sid, seen') => id' == id && stream == Some(sid) && seen' == seen
    case RevEnding(id', sid, seen') => id' == id && stream == Some(sid) && seen' == seen
    case RevStamping(id', look) => id' == id && look.stream == stream && look.seen == seen
    case RevWriting(id', look, _) => id' == id && look.stream == stream && look.seen == seen
    case RevReturned(id', look, _) => id' == id && look.stream == stream && look.seen == seen
    case _ => false
  }

  /** Revoke's local record of its read does not change on the way to its return. */
  lemma {:induction false} LookIsKept(s: System, es: seq<Event>, h: Handler, id: Uuid, stream: Option<Uuid>, seen: set<Uuid>)
    requires Feasible(s, es) && h in s.procs && HasLooked(s.procs[h], id, stream, seen)
    ensures h in After(s, es).procs && HasLooked(After(s, es).procs[h], id, stream, seen)
    decreases |es|
  {
    if es != [] {
      LookIsKept(Next(s, es[0]), es[1..], h, id, stream, seen);
    }
  }

  /** Revoke under any interleaving, from the statement that reads the active stream to its return:
      if it reports success the key is revoked or deleted; unless ending the stream hit a database
      error, the stream it read is ended or deleted, and any stream active on the key at return was
      inserted after the read. */
  lemma RevokeUnderRaces(s: System, c: Choice, es: seq<Event>, h: Handler, id: Uuid)
    requires Inv(s) && h in s.procs && s.procs[h] == RevFound(id) && Enabled(s, Step(h, c)) && c.outcome == Fine
    requires Feasible(Next(s, Step(h, c)), es)
    requires h in After(Next(s, Step(h, c)), es).procs && After(Next(s, Step(h, c)), es).procs[h].RevReturned?
    ensures var s' := After(Next(s, Step(h, c)), es);
            var look, reply := s'.procs[h].look, s'.procs[h].reply;
            && look.stream == StreamOfKey(s.db, id)
            && (reply == Done && id in s'.db.keys ==> s'.db.keys[id].status == KeyRevoked)
            && (!look.endError ==>
                  && (look.stream.Some? ==> !Live(s'.db, look.stream.value))
                  && (forall x :: LiveFor(s'.db, x, id) ==> x !in s.db.streams))
  {
    var s1 := Next(s, Step(h, c));
    NextKeepsInv(s, Step(h, c));
    LookIsKept(s1, es, h, id, StreamOfKey(s.db, id), s.db.streams.Keys);
    RunKeepsInv(s1, es);
    var s' := After(s1, es);
    assert PcOk(s'.db, s'.clock, s'.used, s'.procs[h]);
  }

  // ---------------------------------------------------------------- exactly when it leaves a stream

  /** A ready webhook that starts a stream, if the text `v` is a key's and the key is free. */
  predicate CanOpen(path: string, sourceType: string, sourceId: string, v: string) {
    path == v && path != "" && SourceFits(sourceType, sourceId)
  }

  /** A ready webhook under way that can still start a stream on key `k`, whose text is `v`. */
  predicate ReadyFor(pc: Pc, k: Uuid, v: string) {
    match pc
    case RdyStart(path, sourceType, sourceId) => CanOpen(path, sourceType, sourceId, v)
    case RdyFound(keyId, path, sourceType, sourceId) => keyId == k && |path| <= MAX_PATH && SourceFits(sourceType, sourceId)
    case RdyInserting(row) => row.keyId == k && StreamFits(row)
    case _ => false
  }

  /** Among whatever else arrives, no ready webhook that can start a stream on the key with text `v`. */
  predicate NoReadyArrives(es: seq<Event>, v: string) {
    forall e :: e in es && e.Arrive? && e.call.CallReady? ==>
      !CanOpen(e.call.path, e.call.sourceType, e.call.sourceId, v)
  }

  /** No ready webhook under way can start a stream on key `k`, whose text is or was `v`. */
  ghost predicate NoReady(s: System, k: Uuid, v: string) {
    && k in s.used
    && (k in s.db.keys ==> s.db.keys[k].keyValue == v)
    && forall g :: g in s.procs ==> !ReadyFor(s.procs[g], k, v)
  }

  lemma NoReadyMove(t: Tables, now: Clock, pc: Pc, c: Choice, k: Uuid, v: string)
    requires !Finished(pc) && !ReadyFor(pc, k, v)
    requires k in t.keys ==> t.keys[k].keyValue == v
    ensures var m := Advance(t, now, pc, c);
            && !ReadyFor(m.next, k, v)
            && (Issued(m.effect).Some? && Issued(m.effect).value.InsertStream? ==>
                  Issued(m.effect).value.stream.keyId != k || !Succeeds(t, Issued(m.effect).value))
  {
  }

  /** Only inserting a stream on key `k` makes a stream active on it. */
  lemma LivesGrowByInsert(t: Tables, st: Statement, k: Uuid)
    requires st.InsertStream? ==> st.stream.keyId != k || !Succeeds(t, st)
    ensures forall sid :: LiveFor(Run(t, st), sid, k) ==> LiveFor(t, sid, k)
  {
  }

  lemma NoReadyStep(s: System, g: Handler, c: Choice, k: Uuid, v: string)
    requires Enabled(s, Step(g, c)) && NoReady(s, k, v)
    ensures var s' := Next(s, Step(g, c));
            && (forall h :: h in s'.procs ==> !ReadyFor(s'.procs[h], k, v))
            && (forall sid :: LiveFor(s'.db, sid, k) ==> LiveFor(s.db, sid, k))
  {
    NoReadyMove(s.db, s.clock, s.procs[g], c, k, v);
    var issued := Issued(Advance(s.db, s.clock, s.procs[g], c).effect);
    if issued.Some? {
      LivesGrowByInsert(s.db, issued.value, k);
    }
  }

  /** No event but a fitting ready's arrival ends this, and while it lasts no stream starts on `k`. */
  lemma NoReadyLasts(s: System, e: Event, k: Uuid, v: string)
    requires Enabled(s, e) && Evolves(s, Next(s, e)) && NoReady(s, k, v) && NoReadyArrives([e], v)
    ensures NoReady(Next(s, e), k, v)
    ensures forall sid :: LiveFor(Next(s, e).db, sid, k) ==> LiveFor(s.db, sid, k)
  {
    match e
    case Tick(_) =>
    case Arrive(_, _) => assert e in [e];
    case Step(g, c) => NoReadyStep(s, g, c, k, v);
  }

  /** The streams that existed when Revoke read its key's active stream, once it has. */
  function Seen(pc: Pc): Option<set<Uuid>> {
    match pc
    case RevKicking(_, _, seen) => Some(seen)
    case RevEnding(_, _, seen) => Some(seen)
    case RevStamping(_, look) => Some(look.seen)
    case RevWriting(_, look, _) => Some(look.seen)
    case RevReturned(_, look, _) => Some(look.seen)
    case _ => None
  }

  predicate Revoking(pc: Pc, k: Uuid) {
    && (pc.RevStart? || pc.RevFound? || pc.RevKicking? || pc.RevEnding? || pc.RevStamping? || pc.RevWriting?
        || pc.RevReturned? || pc.RevRefused?)
    && pc.id == k
  }

  /** Revoke `h` is on key `k`, and has seen every stream that is active on it, if it has looked. */
  ghost predicate SeenAll(s: System, h: Handler, k: Uuid) {
    && h in s.procs && Revoking(s.procs[h], k)
    && (Seen(s.procs[h]).Some? ==> forall sid :: LiveFor(s.db, sid, k) ==> sid in Seen(s.procs[h]).value)
  }

  lemma SeenMove(t: Tables, now: Clock, pc: Pc, c: Choice, k: Uuid)
    requires !Finished(pc) && Revoking(pc, k)
    ensures var m := Advance(t, now, pc, c);
            && Revoking(m.next, k)
            && if pc.RevFound? then m.effect == Nothing && (m.next.RevRefused? || Seen(m.next) == Some(t.streams.Keys))
               else Seen(m.next) == Seen(pc)
  {
  }

  lemma SeenAllLasts(s: System, e: Event, h: Handler, k: Uuid)
    requires Enabled(s, e) && SeenAll(s, h, k)
    requires forall sid :: LiveFor(Next(s, e).db, sid, k) ==> LiveFor(s.db, sid, k)
    ensures SeenAll(Next(s, e), h, k)
  {
    if e.Step? && e.h == h {
      SeenMove(s.db, s.clock, s.procs[h], e.choice, k);
    }
  }

  lemma {:induction false} NothingUnseen(s: System, es: seq<Event>, h: Handler, k: Uuid, v: string)
    requires Inv(s) && Feasible(s, es) && NoReady(s, k, v) && NoReadyArrives(es, v) && SeenAll(s, h, k)
    ensures var s' := After(s, es);
            && Inv(s') && SeenAll(s', h, k)
            && forall sid :: LiveFor(s'.db, sid, k) ==> LiveFor(s.db, sid, k)
    decreases |es|
  {
    if es != [] {
      assert es[0] in es;
      NextKeepsInv(s, es[0]);
      NoReadyLasts(s, es[0], k, v);
      SeenAllLasts(s, es[0], h, k);
      NothingUnseen(Next(s, es[0]), es[1..], h, k, v);
    }
  }

  /** Key `k` is past `active` or gone for good, and Revoke `h` has not read its status, or was refused. */
  ghost predicate Refusing(s: System, h: Handler, k: Uuid) {
    && k in s.used && (k in s.db.keys ==> s.db.keys[k].status != KeyActive)
    && h in s.procs && Revoking(s.procs[h], k) && (s.procs[h].RevStart? || s.procs[h].RevRefused?)
  }

  lemma RefusingLasts(s: System, e: Event, h: Handler, k: Uuid)
    requires Enabled(s, e) && Evolves(s, Next(s, e)) && Refusing(s, h, k)
    ensures Refusing(Next(s, e), h, k)
  {
  }

  /** A Revoke that finds its key out of `active` is refused. */
  lemma {:induction false} InactiveIsRefused(s: System, es: seq<Event>, h: Handler, k: Uuid)
    requires Inv(s) && Feasible(s, es) && Refusing(s, h, k)
    ensures Refusing(After(s, es), h, k)
    decreases |es|
  {
    if es != [] {
      NextKeepsInv(s, es[0]);
      RefusingLasts(s, es[0], h, k);
      InactiveIsRefused(Next(s, es[0]), es[1..], h, k);
    }
  }

  // ---------------------------------------------------------------- and otherwise a schedule that leaves one

  lemma ReadyMoves(t: Tables, now: Clock, pc: Pc, c: Choice, k: Uuid)
    requires Constraints(t) && k in t.keys && !InUse(t, k) && c.newId !in t.streams
    requires ReadyFor(pc, k, t.keys[k].keyValue) && c.outcome == Fine
    requires pc.RdyInserting? ==> pc.row.status == StreamActive
    ensures var m := Advance(t, now, pc, c);
            if pc.RdyInserting? then
              && m.effect.Write?
              && LiveFor(TablesAfter(t, m.effect), c.newId, k)
              && TablesAfter(t, m.effect).keys == t.keys
            else m.effect == Nothing && ReadyFor(m.next, k, t.keys[k].keyValue)
  {
    KeyByValueIs(t, k);
  }

  ghost predicate ReadyToStart(s: System, g: Handler, k: Uuid) {
    && k in s.db.keys && k !in s.locks && !InUse(s.db, k)
    && g in s.procs && ReadyFor(s.procs[g], k, s.db.keys[k].keyValue)
  }

  ghost predicate OnlyMoved(s: System, s': System, g: Handler) {
    && s'.db.keys == s.db.keys && s'.locks == s.locks
    && forall h :: h in s.procs && h != g ==> h in s'.procs && s'.procs[h] == s.procs[h]
  }

  lemma ReadyStep(s: System, g: Handler, k: Uuid) returns (c: Choice)
    requires Constraints(s.db) && s.db.streams.Keys <= s.used && ReadyToStart(s, g, k)
    requires s.procs[g].RdyInserting? ==> s.procs[g].row.status == StreamActive
    ensures Enabled(s, Step(g, c))
    ensures var s' := Next(s, Step(g, c));
            && OnlyMoved(s, s', g)
            && (if s.procs[g].RdyInserting? then InUse(s'.db, k)
                else ReadyToStart(s', g, k) && Left(s'.procs[g]) < Left(s.procs[g]))
  {
    var pc := s.procs[g];
    c := SomeChoice(s.used);
    ReadyMoves(s.db, s.clock, pc, c, k);
    EveryStepIsProgress(s.db, s.clock, pc, c);
  }

  /** A ready webhook under way on a free, unlocked key can run to its insert, and starts a stream. */
  lemma {:induction false} ReadyCanInsert(s: System, g: Handler, k: Uuid) returns (es: seq<Event>)
    requires Inv(s) && ReadyToStart(s, g, k)
    ensures Feasible(s, es) && NoArrivals(es)
    ensures InUse(After(s, es).db, k) && OnlyMoved(s, After(s, es), g)
    decreases Left(s.procs[g])
  {
    assert PcOk(s.db, s.clock, s.used, s.procs[g]);
    var c := ReadyStep(s, g, k);
    var e := Step(g, c);
    NextKeepsInv(s, e);
    var rest := [];
    if !s.procs[g].RdyInserting? {
      rest := ReadyCanInsert(Next(s, e), g, k);
    }
    RunStarts(s, e, rest);
    es := [e] + rest;
  }

  /** A Revoke of key `k` that has found it active and not returned yet. */
  predicate Underway(pc: Pc, k: Uuid) {
    Revoking(pc, k) && !pc.RevStart? && !Finished(pc)
  }

  lemma RevokeMoves(t: Tables, now: Clock, pc: Pc, c: Choice, k: Uuid)
    requires k in t.keys && Underway(pc, k) && c.outcome == Fine
    ensures var m := Advance(t, now, pc, c);
            var u := TablesAfter(t, m.effect);
            && k in u.keys && (m.effect.Write? || m.effect == Nothing)
            && (if pc.RevWriting? then m.next == RevReturned(k, pc.look, Done) && u.keys[k].status == KeyRevoked
                else u.keys == t.keys && Underway(m.next, k))
            && (pc.RevStamping? ==> m.next.RevWriting? && m.next.look == pc.look)
            && (pc.RevStamping? || pc.RevWriting? ==> u.streams == t.streams)
  {
  }

  /** On an unlocked key a Revoke that has found it active can run to its end, and succeeds.  In its
      last two steps it touches no stream. */
  lemma {:induction false} RevokeCanFinish(s: System, h: Handler, k: Uuid) returns (es: seq<Event>)
    requires h in s.procs && Underway(s.procs[h], k) && k in s.db.keys && k !in s.locks
    ensures Feasible(s, es) && NoArrivals(es)
    ensures var s' := After(s, es);
            && h in s'.procs && s'.procs[h].RevReturned? && s'.procs[h].reply == Done
            && k in s'.db.keys && s'.db.keys[k].status == KeyRevoked
            && (s.procs[h].RevStamping? || s.procs[h].RevWriting? ==>
                  s'.procs[h].look == s.procs[h].look && s'.db.streams == s.db.streams)
    decreases Left(s.procs[h])
  {
    var c := SomeChoice(s.used);
    var e := Step(h, c);
    RevokeMoves(s.db, s.clock, s.procs[h], c, k);
    EveryStepIsProgress(s.db, s.clock, s.procs[h], c);
    var rest := [];
    if !s.procs[h].RevWriting? {
      rest := RevokeCanFinish(Next(s, e), h, k);
    }
    RunStarts(s, e, rest);
    es := [e] + rest;
  }

  lemma RevokeLooks(t: Tables, now: Clock, pc: Pc, c: Choice, k: Uuid)
    requires Underway(pc, k) && !pc.RevStamping? && !pc.RevWriting? && c.outcome != Lost
    requires c.outcome == Fine || pc.RevEnding?
    requires Seen(pc).Some? ==> Seen(pc).value == t.streams.Keys
    ensures var m := Advance(t, now, pc, c);
            var u := TablesAfter(t, m.effect);
            && u.keys == t.keys && (m.effect.Write? || m.effect == Nothing)
            && Underway(m.next, k) && !m.next.RevWriting?
            && Seen(m.next) == Some(u.streams.Keys)
            && (m.next.RevStamping? ==> (m.next.look.endError <==> c.outcome == Refused))
            && (!pc.RevEnding? || c.outcome == Refused ==> u == t)
            && (pc.RevFound? && m.next.RevStamping? ==> !InUse(t, k))
  {
    if pc.RevEnding? {
      assert Run(t, EndStream(pc.sid, now.db)).streams.Keys == t.streams.Keys;
    }
  }

  /** A Revoke that has found its key active and has yet to deal with its stream: to end it or, with
      `error`, to hit a database error in doing so. */
  ghost predicate Looking(s: System, h: Handler, k: Uuid, error: bool) {
    && h in s.procs && Underway(s.procs[h], k) && !s.procs[h].RevWriting?
    && (s.procs[h].RevStamping? ==> s.procs[h].look.endError == error)
    && (error ==> InUse(s.db, k))
    && (Seen(s.procs[h]).Some? ==> Seen(s.procs[h]).value == s.db.streams.Keys)
  }

  lemma LookingStep(s: System, h: Handler, k: Uuid, error: bool) returns (c: Choice)
    requires Looking(s, h, k, error) && !s.procs[h].RevStamping?
    ensures Enabled(s, Step(h, c))
    ensures var s' := Next(s, Step(h, c));
            Looking(s', h, k, error) && OnlyMoved(s, s', h) && Left(s'.procs[h]) < Left(s.procs[h])
  {
    var pc := s.procs[h];
    c := SomeChoice(s.used);
    if pc.RevEnding? && error {
      c := c.(outcome := Refused);
    }
    RevokeLooks(s.db, s.clock, pc, c, k);
    EveryStepIsProgress(s.db, s.clock, pc, c);
  }

  lemma LookedAtEverything(s: System, h: Handler, k: Uuid, error: bool)
    requires Inv(s) && Looking(s, h, k, error) && s.procs[h].RevStamping?
    ensures InUse(s.db, k) == error
  {
    assert PcOk(s.db, s.clock, s.used, s.procs[h]);
  }

  /** Running by itself on from there, Revoke gets as far as having dealt with the key's stream. */
  lemma {:induction false} RevokeCanLook(s: System, h: Handler, k: Uuid, error: bool) returns (es: seq<Event>)
    requires Inv(s) && Looking(s, h, k, error)
    ensures Feasible(s, es) && NoArrivals(es)
    ensures var s' := After(s, es);
            && Inv(s') && OnlyMoved(s, s', h)
            && Looking(s', h, k, error) && s'.procs[h].RevStamping? && InUse(s'.db, k) == error
    decreases Left(s.procs[h])
  {
    if s.procs[h].RevStamping? {
      es := [];
      LookedAtEverything(s, h, k, error);
    } else {
      var c := LookingStep(s, h, k, error);
      var e := Step(h, c);
      NextKeepsInv(s, e);
      var rest := RevokeCanLook(Next(s, e), h, k, error);
      RunStarts(s, e, rest);
      es := [e] + rest;
    }
  }

  /** Revoke `h` has reported success, and a stream is active on its key. */
  ghost predicate LeftInUse(s: System, h: Handler, k: Uuid, error: bool) {
    && h in s.procs && s.procs[h].RevReturned? && s.procs[h].reply == Done && s.procs[h].look.endError == error
    && InUse(s.db, k)
  }

  lemma RevokeFinds(s: System, h: Handler, k: Uuid) returns (c: Choice)
    requires h in s.procs && s.procs[h] == RevStart(k) && k in s.db.keys && s.db.keys[k].status == KeyActive
    ensures Enabled(s, Step(h, c))
    ensures var s' := Next(s, Step(h, c));
            s'.db == s.db && s'.procs == s.procs[h := RevFound(k)]
  {
    c := SomeChoice(s.used);
  }

  /** From `s` to `s'` Revoke has dealt with the stream of its key, which is unlocked, and every ready
      webhook for the key is where it was. */
  ghost predicate Begun(s: System, s': System, h: Handler, k: Uuid, error: bool)
    requires k in s.db.keys
  {
    && Inv(s') && k !in s'.locks
    && k in s'.db.keys && s'.db.keys[k].keyValue == s.db.keys[k].keyValue
    && h in s'.procs && s'.procs[h].RevStamping? && s'.procs[h].id == k
    && s'.procs[h].look.endError == error && InUse(s'.db, k) == error
    && (forall g, v :: g in s.procs && ReadyFor(s.procs[g], k, v) ==> g in s'.procs && s'.procs[g] == s.procs[g])
  }

  lemma BegunNow(s: System, s1: System, s2: System, h: Handler, k: Uuid, error: bool)
    requires k in s.db.keys && h in s.procs && s.procs[h] == RevFound(k)
    requires OnlyHolderRan(s, s1, k) && k !in s1.locks && OnlyMoved(s1, s2, h)
    requires Inv(s2) && Looking(s2, h, k, error) && s2.procs[h].RevStamping? && InUse(s2.db, k) == error
    ensures Begun(s, s2, h, k, error)
  {
    forall g, v | g in s.procs && ReadyFor(s.procs[g], k, v) ensures g in s2.procs && s2.procs[g] == s.procs[g] {
      assert g != h && Holds(s.procs[g]) == None;
    }
  }

  lemma BegunSince(s: System, s1: System, s2: System, h: Handler, k: Uuid, error: bool)
    requires k in s.db.keys && h in s.procs && s.procs[h] == RevStart(k)
    requires s1.db == s.db && s1.procs == s.procs[h := RevFound(k)] && Begun(s1, s2, h, k, error)
    ensures Begun(s, s2, h, k, error)
  {
    forall g, v | g in s.procs && ReadyFor(s.procs[g], k, v) ensures g in s2.procs && s2.procs[g] == s.procs[g] {
      assert g != h && g in s1.procs && ReadyFor(s1.procs[g], k, v);
    }
  }

  lemma FoundCanLook(s: System, h: Handler, k: Uuid, error: bool) returns (es: seq<Event>)
    requires Inv(s) && h in s.procs && s.procs[h] == RevFound(k) && k in s.db.keys && (error ==> InUse(s.db, k))
    ensures Feasible(s, es) && NoArrivals(es)
    ensures Begun(s, After(s, es), h, k, error)
  {
    var unlock := ReleaseLock(s, k);
    var s1 := After(s, unlock);
    RunKeepsInv(s, unlock);
    if error { StillInUse(s, s1, k); }
    assert s1.procs[h] == RevFound(k) by { assert Holds(s.procs[h]) == None; }
    var look := RevokeCanLook(s1, h, k, error);
    RunsCompose(s, unlock, look);
    es := unlock + look;
    BegunNow(s, s1, After(s, es), h, k, error);
  }

  /** From its first statement, Revoke can get as far as having dealt with its key's stream, with the
      key unlocked and nothing done by others but the end of the transaction that had locked it. */
  lemma RevokeCanBegin(s: System, h: Handler, k: Uuid, error: bool) returns (es: seq<Event>)
    requires Inv(s) && h in s.procs && s.procs[h] == RevStart(k) && k in s.db.keys && s.db.keys[k].status == KeyActive
    requires error ==> InUse(s.db, k)
    ensures Feasible(s, es) && NoArrivals(es)
    ensures Begun(s, After(s, es), h, k, error)
  {
    var c := RevokeFinds(s, h, k);
    var e := Step(h, c);
    NextKeepsInv(s, e);
    var rest := FoundCanLook(Next(s, e), h, k, error);
    RunStarts(s, e, rest);
    es := [e] + rest;
    BegunSince(s, Next(s, e), After(s, es), h, k, error);
  }

  lemma FinishInUse(s: System, h: Handler, k: Uuid, error: bool) returns (es: seq<Event>)
    requires h in s.procs && s.procs[h].RevStamping? && s.procs[h].id == k && s.procs[h].look.endError == error
    requires k in s.db.keys && k !in s.locks && InUse(s.db, k)
    ensures Feasible(s, es) && NoArrivals(es) && LeftInUse(After(s, es), h, k, error)
  {
    es := RevokeCanFinish(s, h, k);
    StillInUse(s, After(s, es), k);
  }

  /** With a ready webhook for the key under way, Revoke can succeed and leave a stream. */
  lemma ReadyLeavesStream(s: System, h: Handler, k: Uuid, g: Handler) returns (es: seq<Event>)
    requires Inv(s) && h in s.procs && s.procs[h] == RevStart(k) && k in s.db.keys && s.db.keys[k].status == KeyActive
    requires g in s.procs && ReadyFor(s.procs[g], k, s.db.keys[k].keyValue)
    ensures Feasible(s, es) && NoArrivals(es) && LeftInUse(After(s, es), h, k, false)
  {
    var begin := RevokeCanBegin(s, h, k, false);
    var s1 := After(s, begin);
    var insert := ReadyCanInsert(s1, g, k);
    var s2 := After(s1, insert);
    var finish := FinishInUse(s2, h, k, false);
    RunsCompose(s1, insert, finish);
    RunsCompose(s, begin, insert + finish);
    es := begin + (insert + finish);
  }

  lemma StillInUse(s: System, s': System, k: Uuid)
    requires InUse(s.db, k) && s'.db.streams == s.db.streams
    ensures InUse(s'.db, k)
  {
    var sid: Uuid :| LiveFor(s.db, sid, k);
    assert LiveFor(s'.db, sid, k);
  }

  /** Any fitting ready webhook that arrives before Revoke has run does it too, whatever else is
      under way: Revoke can succeed and leave the stream it starts. */
  lemma ArrivingReadyLeavesStream(s: System, h: Handler, k: Uuid, g: Handler, path: string, sourceType: string, sourceId: string)
    returns (es: seq<Event>)
    requires Inv(s) && h in s.procs && s.procs[h] == RevStart(k) && k in s.db.keys && s.db.keys[k].status == KeyActive
    requires g !in s.procs && CanOpen(path, sourceType, sourceId, s.db.keys[k].keyValue)
    ensures Feasible(s, es) && LeftInUse(After(s, es), h, k, false)
    ensures es != [] && es[0] == Arrive(g, CallReady(path, sourceType, sourceId)) && NoArrivals(es[1..])
  {
    var e := Arrive(g, CallReady(path, sourceType, sourceId));
    NextKeepsInv(s, e);
    var rest := ReadyLeavesStream(Next(s, e), h, k, g);
    RunStarts(s, e, rest);
    es := [e] + rest;
    assert es[1..] == rest;
  }

  /** A database error in EndStream, which Revoke logs and passes over, leaves the stream. */
  lemma ErrorLeavesStream(s: System, h: Handler, k: Uuid) returns (es: seq<Event>)
    requires Inv(s) && h in s.procs && s.procs[h] == RevStart(k) && k in s.db.keys && s.db.keys[k].status == KeyActive
    requires InUse(s.db, k)
    ensures Feasible(s, es) && NoArrivals(es) && LeftInUse(After(s, es), h, k, true)
  {
    var begin := RevokeCanBegin(s, h, k, true);
    var finish := FinishInUse(After(s, begin), h, k, true);
    RunsCompose(s, begin, finish);
    es := begin + finish;
  }

  // ---------------------------------------------------------------- the promise of revocation, exactly

  /** Revoke `h` has returned; without `errors`, it hit no database error in ending the stream. */
  predicate ReturnedRevoke(s: System, h: Handler, errors: bool) {
    h in s.procs && s.procs[h].RevReturned? && (s.procs[h].look.endError ==> errors)
  }

  /** However the handlers are interleaved and whatever else arrives, short of a ready webhook for
      text `v`, Revoke `h` leaves key `k` without an active stream when it returns. */
  ghost predicate AlwaysLeavesFree(s: System, h: Handler, k: Uuid, v: string, errors: bool) {
    forall es :: Feasible(s, es) && NoReadyArrives(es, v) && ReturnedRevoke(After(s, es), h, errors)
      ==> !InUse(After(s, es).db, k)
  }

  ghost predicate ReadyUnderway(s: System, k: Uuid, v: string) {
    exists g :: g in s.procs && ReadyFor(s.procs[g], k, v)
  }

  lemma NothingUnseenIsFree(s: System, h: Handler, k: Uuid)
    requires Inv(s) && SeenAll(s, h, k) && ReturnedRevoke(s, h, false)
    ensures !InUse(s.db, k)
  {
    assert PcOk(s.db, s.clock, s.used, s.procs[h]);
  }

  /** The documentation promises that revocation terminates any active stream of the key.  From
      Revoke's first statement, and when it hits no database error in ending the stream, the code
      keeps that promise exactly when no ready webhook for the key is under way (or the key is not
      active, and Revoke is refused): Revoke takes no lock, and ready asks no status. */
  lemma RevokeLeavesFreeIffNoReady(s: System, h: Handler)
    requires Inv(s) && h in s.procs && s.procs[h].RevStart? && s.procs[h].id in s.db.keys
    ensures var k := s.procs[h].id;
            var v := s.db.keys[k].keyValue;
            AlwaysLeavesFree(s, h, k, v, false)
            <==> (s.db.keys[k].status == KeyActive ==> !ReadyUnderway(s, k, v))
  {
    var k := s.procs[h].id;
    var v := s.db.keys[k].keyValue;
    if s.db.keys[k].status != KeyActive {
      RefusedLeavesFree(s, h, k, v, false);
    } else if ReadyUnderway(s, k, v) {
      var g :| g in s.procs && ReadyFor(s.procs[g], k, v);
      var es := ReadyLeavesStream(s, h, k, g);
    } else {
      forall es | Feasible(s, es) && NoReadyArrives(es, v) && ReturnedRevoke(After(s, es), h, false)
        ensures !InUse(After(s, es).db, k)
      {
        NothingUnseen(s, es, h, k, v);
        NothingUnseenIsFree(After(s, es), h, k);
      }
    }
  }

  /** And when a database error in ending the stream is allowed for, exactly when moreover the key
      has no active stream to end. */
  lemma RevokeLeavesFreeDespiteErrorsIff(s: System, h: Handler)
    requires Inv(s) && h in s.procs && s.procs[h].RevStart? && s.procs[h].id in s.db.keys
    ensures var k := s.procs[h].id;
            var v := s.db.keys[k].keyValue;
            AlwaysLeavesFree(s, h, k, v, true)
            <==> (s.db.keys[k].status == KeyActive ==> !ReadyUnderway(s, k, v) && !InUse(s.db, k))
  {
    var k := s.procs[h].id;
    var v := s.db.keys[k].keyValue;
    if s.db.keys[k].status != KeyActive {
      RefusedLeavesFree(s, h, k, v, true);
    } else if ReadyUnderway(s, k, v) {
      var g :| g in s.procs && ReadyFor(s.procs[g], k, v);
      var es := ReadyLeavesStream(s, h, k, g);
    } else if InUse(s.db, k) {
      var es := ErrorLeavesStream(s, h, k);
    } else {
      forall es | Feasible(s, es) && NoReadyArrives(es, v) ensures !InUse(After(s, es).db, k) {
        NothingUnseen(s, es, h, k, v);
      }
    }
  }

  lemma RefusedLeavesFree(s: System, h: Handler, k: Uuid, v: string, errors: bool)
    requires Inv(s) && h in s.procs && s.procs[h] == RevStart(k) && k in s.db.keys && s.db.keys[k].status != KeyActive
    ensures AlwaysLeavesFree(s, h, k, v, errors)
  {
    forall es | Feasible(s, es) ensures !ReturnedRevoke(After(s, es), h, errors) {
      InactiveIsRefused(s, es, h, k);
    }
  }
}
