/** No deadlock, and every handler returns: a bound on the work that is left. */
module Progress {
  import opened Domain
  import opened Schema
  import opened Statements
  import opened KeyText
  import opened Protocol
  import opened Invariant
  import B = Base64Url

  /** An upper bound on the steps a handler still has to take. */
  function Left(pc: Pc): nat {
    if Finished(pc) then 0 else
    match pc
    case AuthStart(_, _) => 8
    case AuthBegun(_) => 7
    case AuthLocked(_, _, _) => 6
    case AuthExpiring(_, _, _, _) => 5
    case AuthChecking(_, _, _, _) => 5
    case AuthTouching(_, _, _, _) => 4
    case AuthClosing(_, _, _) => 3
    case AuthCommitExpired(_, _, _, _) => 3
    case AuthCommitTouch(_, _, _, _) => 3
    case AuthDecided(_, _) => 1
    case RevStart(_) => 6
    case RevFound(_) => 5
    case RevKicking(_, _, _) => 4
    case RevEnding(_, _, _) => 3
    case RevStamping(_, _) => 2
    case RevWriting(_, _, _) => 1
    case RdyStart(_, _, _) => 3
    case RdyFound(_, _, _, _) => 2
    case NewStart(_, _) => 2
    case _ => 1
  }

  lemma EveryStepIsProgress(t: Tables, now: Clock, pc: Pc, c: Choice)
    requires !Finished(pc)
    ensures Left(Advance(t, now, pc, c).next) < Left(pc)
    ensures Left(pc) == 0 <==> Finished(pc)
  {
  }

  ghost function Total(procs: map<Handler, Pc>): nat
    decreases |procs|
  {
    if procs == map[] then 0
    else
      var h :| h in procs;
      Left(procs[h]) + Total(procs - {h})
  }

  /** The choice of the handler counted first does not matter. */
  lemma {:induction false} TotalSplit(procs: map<Handler, Pc>, h: Handler)
    requires h in procs
    ensures Total(procs) == Left(procs[h]) + Total(procs - {h})
    decreases |procs|
  {
    var x :| x in procs && Total(procs) == Left(procs[x]) + Total(procs - {x});
    if x != h {
      TotalSplit(procs - {x}, h);
      TotalSplit(procs - {h}, x);
      assert procs - {x} - {h} == procs - {h} - {x};
    }
  }

  lemma TotalUpdate(procs: map<Handler, Pc>, h: Handler, pc: Pc)
    requires h in procs
    ensures Total(procs[h := pc]) == Total(procs) - Left(procs[h]) + Left(pc)
  {
    TotalSplit(procs, h);
    TotalSplit(procs[h := pc], h);
    assert procs[h := pc] - {h} == procs - {h};
  }

  lemma {:induction false} TotalZero(procs: map<Handler, Pc>)
    ensures Total(procs) == 0 <==> forall h :: h in procs ==> Finished(procs[h])
  {
    if Total(procs) == 0 {
      forall h | h in procs ensures Finished(procs[h]) {
        TotalSplit(procs, h);
      }
    } else {
      var h := SomeUnfinished(procs);
    }
  }

  lemma {:induction false} SomeUnfinished(procs: map<Handler, Pc>) returns (h: Handler)
    requires Total(procs) > 0
    ensures h in procs && !Finished(procs[h])
    decreases |procs|
  {
    h :| h in procs;
    TotalSplit(procs, h);
    if Finished(procs[h]) {
      h := SomeUnfinished(procs - {h});
    }
  }

  lemma StepShrinksTotal(s: System, h: Handler, c: Choice)
    requires Enabled(s, Step(h, c))
    ensures Total(Next(s, Step(h, c)).procs) < Total(s.procs)
  {
    EveryStepIsProgress(s.db, s.clock, s.procs[h], c);
    TotalUpdate(s.procs, h, Advance(s.db, s.clock, s.procs[h], c).next);
  }

  // ---------------------------------------------------------------- no deadlock

  lemma {:induction false} Above(used: set<Uuid>) returns (id: Uuid)
    ensures forall x :: x in used ==> x < id
    decreases |used|
  {
    id := 0;
    if used != {} {
      var x: Uuid :| x in used;
      var rest := Above(used - {x});
      id := if rest <= x then x + 1 else rest;
      assert forall y :: y in used ==> y == x || y in used - {x};
    }
  }

  lemma SomeChoice(used: set<Uuid>) returns (c: Choice)
    ensures c.outcome == Fine && c.newId !in used && |c.random| == ENTROPY
  {
    var id := Above(used);
    c := Choice(Fine, id, seq(ENTROPY, i => 0 as B.byte));
  }

  /** The holder of a key's lock never waits for another handler. */
  lemma HolderNeverWaits(t: Tables, locks: map<Uuid, Handler>, pc: Pc)
    requires Holds(pc).Some?
    ensures !Finished(pc) && !Waits(t, locks, pc)
  {
  }

  lemma WaitsForALock(t: Tables, locks: map<Uuid, Handler>, pc: Pc) returns (k: Uuid)
    requires Waits(t, locks, pc)
    ensures k in locks
  {
    match pc {
      case AuthBegun(tx) => k := KeyByValue(t, Presented(tx.req)).value;
      case RevWriting(id, _, _) => k := id;
      case RdyInserting(row) => k := row.keyId;
      case LeaveStart(b) => k :| k in locks && OwnedBy(t, k, b);
    }
  }

  /** No reachable state is deadlocked: while any handler has not returned, some handler can take
      a step that succeeds. */
  lemma NoDeadlock(s: System) returns (h: Handler, c: Choice)
    requires Inv(s) && exists g :: g in s.procs && !Finished(s.procs[g])
    ensures Enabled(s, Step(h, c)) && c.outcome == Fine
  {
    c := SomeChoice(s.used);
    h :| h in s.procs && !Finished(s.procs[h]);
    if Waits(s.db, s.locks, s.procs[h]) {
      var k := WaitsForALock(s.db, s.locks, s.procs[h]);
      h := s.locks[k];
      HolderNeverWaits(s.db, s.locks, s.procs[h]);
    }
  }

  // ---------------------------------------------------------------- termination

  predicate NoArrivals(es: seq<Event>) {
    forall e :: e in es ==> !e.Arrive?
  }

  function Steps(es: seq<Event>): nat {
    if es == [] then 0 else (if es[0].Step? then 1 else 0) + Steps(es[1..])
  }

  /** Once nothing new arrives, every run takes at most Total more steps, whatever fails. */
  lemma {:induction false} RunsAreBounded(s: System, es: seq<Event>)
    requires Feasible(s, es) && NoArrivals(es)
    ensures Steps(es) + Total(After(s, es).procs) <= Total(s.procs)
    decreases |es|
  {
    if es != [] {
      var s1 := Next(s, es[0]);
      assert es[0] in es && NoArrivals(es[1..]);
      RunsAreBounded(s1, es[1..]);
      if es[0].Step? {
        StepShrinksTotal(s, es[0].h, es[0].choice);
      }
    }
  }

  /** So a run without arrivals that can be extended no further is one in which every handler has
      returned; and from every reachable state such a run exists. */
  lemma StuckMeansReturned(s: System, es: seq<Event>)
    requires Inv(s) && Feasible(s, es)
    requires forall h, c :: !Enabled(After(s, es), Step(h, c))
    ensures forall h :: h in After(s, es).procs ==> Finished(After(s, es).procs[h])
    ensures Total(After(s, es).procs) == 0
  {
    RunKeepsInv(s, es);
    var s' := After(s, es);
    if exists g :: g in s'.procs && !Finished(s'.procs[g]) {
      var h, c := NoDeadlock(s');
    }
    TotalZero(s'.procs);
  }

  lemma {:induction false} EveryoneCanReturn(s: System) returns (es: seq<Event>)
    requires Inv(s)
    ensures Feasible(s, es) && NoArrivals(es) && |es| <= Total(s.procs)
    ensures forall h :: h in After(s, es).procs ==> Finished(After(s, es).procs[h])
    decreases Total(s.procs)
  {
    TotalZero(s.procs);
    if Total(s.procs) == 0 {
      es := [];
    } else {
      var h, c := NoDeadlock(s);
      var e := Step(h, c);
      StepShrinksTotal(s, h, c);
      NextKeepsInv(s, e);
      var rest := EveryoneCanReturn(Next(s, e));
      RunStarts(s, e, rest);
      es := [e] + rest;
    }
  }

  // ---------------------------------------------------------------- letting a transaction end

  /** The tables `s'` differ from those of `s` at most in key `k`'s status and times, and every
      handler without a lock is where it was. */
  ghost predicate OnlyHolderRan(s: System, s': System, k: Uuid) {
    && s'.db.streams == s.db.streams && s'.db.keys.Keys == s.db.keys.Keys
    && (k in s.db.keys ==> s'.db.keys[k].keyValue == s.db.keys[k].keyValue)
    && forall h :: h in s.procs && Holds(s.procs[h]) == None ==> h in s'.procs && s'.procs[h] == s.procs[h]
  }

  lemma HolderMoves(t: Tables, now: Clock, pc: Pc, c: Choice, k: Uuid)
    requires Holds(pc) == Some(k) && c.outcome == Fine
    ensures var m := Advance(t, now, pc, c);
            var u := TablesAfter(t, m.effect);
            && (m.effect.EndTx? || m.effect == Nothing)
            && u.streams == t.streams && u.keys.Keys == t.keys.Keys
            && (k in t.keys ==> u.keys[k].keyValue == t.keys[k].keyValue)
  {
  }

  lemma HolderStep(s: System, k: Uuid) returns (c: Choice)
    requires Inv(s) && k in s.locks
    ensures Enabled(s, Step(s.locks[k], c))
    ensures var h, s' := s.locks[k], Next(s, Step(s.locks[k], c));
            && Inv(s') && OnlyHolderRan(s, s', k)
            && h in s.procs && h in s'.procs && Left(s'.procs[h]) < Left(s.procs[h])
            && (k in s'.locks ==> s'.locks[k] == h)
  {
    var h := s.locks[k];
    c := SomeChoice(s.used);
    HolderNeverWaits(s.db, s.locks, s.procs[h]);
    HolderMoves(s.db, s.clock, s.procs[h], c, k);
    EveryStepIsProgress(s.db, s.clock, s.procs[h], c);
    NextKeepsInv(s, Step(h, c));
  }

  /** A key's lock can be released by its holder alone. */
  lemma {:induction false} ReleaseLock(s: System, k: Uuid) returns (es: seq<Event>)
    requires Inv(s)
    ensures Feasible(s, es) && NoArrivals(es)
    ensures k !in After(s, es).locks && OnlyHolderRan(s, After(s, es), k)
    decreases if k in s.locks && s.locks[k] in s.procs then Left(s.procs[s.locks[k]]) + 1 else 0
  {
    if k !in s.locks {
      es := [];
    } else {
      var c := HolderStep(s, k);
      var e := Step(s.locks[k], c);
      var rest := ReleaseLock(Next(s, e), k);
      RunStarts(s, e, rest);
      es := [e] + rest;
    }
  }

  lemma {:induction false} RunsCompose(s: System, es: seq<Event>, fs: seq<Event>)
    requires Feasible(s, es) && Feasible(After(s, es), fs)
    ensures Feasible(s, es + fs) && After(s, es + fs) == After(After(s, es), fs)
    decreases |es|
  {
    if es == [] {
      assert es + fs == fs;
    } else {
      RunsCompose(Next(s, es[0]), es[1..], fs);
      RunStarts(s, es[0], es[1..] + fs);
      assert es + fs == [es[0]] + (es[1..] + fs);
    }
  }
}
