/** What one authentication decides, taken as a single step on the tables. */
module Verdicts {
  import opened Domain
  import opened Schema
  import opened Statements
  import opened KeyText

  datatype Verdict =
    | NonPublish
    | MissingKey
    | UnknownKey
    | RevokedKey
    | ExpiredKey
    | KeyInUse
    | Authenticated(keyId: Uuid)
  {
    predicate Allowed() {
      NonPublish? || Authenticated?
    }
  }

  /** The verdicts that need no database. */
  function EarlyVerdict(req: AuthRequest): Option<Verdict> {
    if !WantsPublish(req) then Some(NonPublish)
    else if Presented(req) == "" then Some(MissingKey)
    else None
  }

  /** The verdict on `req` when the tables are `t` and the clock reads `reading`. */
  ghost function Judge(t: Tables, req: AuthRequest, reading: Instant): Verdict {
    match EarlyVerdict(req)
    case Some(v) => v
    case None =>
      match KeyByValue(t, Presented(req))
      case None => UnknownKey
      case Some(k) =>
        if t.keys[k].status == KeyRevoked then RevokedKey
        else if t.keys[k].status == KeyExpired || t.keys[k].PastExpiry(reading) then ExpiredKey
        else if InUse(t, k) then KeyInUse
        else Authenticated(k)
  }

  /** Whether expiry is recorded in the row on first contact, as the code does, or left to the
      clock alone. */
  datatype Mode = Materialising | TimeOnly

  /** The tables after verdict `v` on `req`, in a transaction that began at `txTime`. */
  ghost function Settle(mode: Mode, t: Tables, req: AuthRequest, v: Verdict, txTime: Instant): Tables {
    match v
    case Authenticated(k) => Run(t, TouchLastUsed(k, txTime))
    case ExpiredKey =>
      if mode == Materialising && KeyByValue(t, Presented(req)).Some?
      then Run(t, MarkExpired(KeyByValue(t, Presented(req)).value))
      else t
    case _ => t
  }

  /** What each verdict says of the request, the rows and the clock. */
  ghost predicate Warranted(t: Tables, req: AuthRequest, reading: Instant, v: Verdict) {
    if req.action != "publish" then v == NonPublish
    else if Presents(req, "") then v == MissingKey
    else
      match v
      case NonPublish => false
      case MissingKey => false
      case UnknownKey => forall k :: k in t.keys ==> !Presents(req, t.keys[k].keyValue)
      case RevokedKey => exists k :: k in t.keys && Presents(req, t.keys[k].keyValue) && t.keys[k].status == KeyRevoked
      case ExpiredKey =>
        exists k :: k in t.keys && Presents(req, t.keys[k].keyValue) && t.keys[k].status != KeyRevoked
                    && (t.keys[k].status == KeyActive ==> t.keys[k].expiresAt.Some? && t.keys[k].expiresAt.value < reading)
      case KeyInUse =>
        exists k :: Valid(t, req, reading, k) && exists sid :: sid in t.streams && StreamsOn(t.streams[sid], k)
      case Authenticated(k) =>
        Valid(t, req, reading, k) && forall sid :: sid in t.streams ==> !StreamsOn(t.streams[sid], k)
  }

  /** Row `k` is the key that the request presents, and it is active and not past its expiry. */
  predicate Valid(t: Tables, req: AuthRequest, reading: Instant, k: Uuid) {
    && k in t.keys && Presents(req, t.keys[k].keyValue)
    && t.keys[k].status == KeyActive
    && (t.keys[k].expiresAt == None || reading <= t.keys[k].expiresAt.value)
  }

  predicate StreamsOn(row: Stream, k: Uuid) {
    row.keyId == k && row.status == StreamActive
  }

  /** The row that Authenticate reads is the only one whose key the request presents. */
  lemma RowPresented(t: Tables, req: AuthRequest)
    requires Constraints(t)
    ensures forall k :: k in t.keys ==> (Presents(req, t.keys[k].keyValue) <==> KeyByValue(t, Presented(req)) == Some(k))
  {
    forall k | k in t.keys
      ensures Presents(req, t.keys[k].keyValue) <==> KeyByValue(t, Presented(req)) == Some(k)
    {
      PresentsOnly(req, t.keys[k].keyValue);
      KeyByValueIs(t, k);
    }
  }

  lemma InUseMeans(t: Tables, k: Uuid)
    ensures InUse(t, k) <==> exists sid :: sid in t.streams && StreamsOn(t.streams[sid], k)
  {
    assert forall sid :: LiveFor(t, sid, k) <==> sid in t.streams && StreamsOn(t.streams[sid], k);
  }

  lemma WarrantedByRow(t: Tables, req: AuthRequest, reading: Instant, v: Verdict, k: Uuid)
    requires req.action == "publish" && !Presents(req, "")
    requires k in t.keys && forall k' :: k' in t.keys ==> (Presents(req, t.keys[k'].keyValue) <==> k' == k)
    requires InUse(t, k) <==> exists sid :: sid in t.streams && StreamsOn(t.streams[sid], k)
    ensures Warranted(t, req, reading, v) <==>
            v == if t.keys[k].status == KeyRevoked then RevokedKey
                 else if t.keys[k].status == KeyExpired || t.keys[k].PastExpiry(reading) then ExpiredKey
                 else if InUse(t, k) then KeyInUse
                 else Authenticated(k)
  {
    assert Presents(req, t.keys[k].keyValue);
    assert forall k' :: Valid(t, req, reading, k') ==> k' == k;
    match v
    case RevokedKey =>
    case ExpiredKey =>
    case KeyInUse => assert Valid(t, req, reading, k) <==> t.keys[k].status == KeyActive && !t.keys[k].PastExpiry(reading);
    case Authenticated(k') =>
    case _ =>
  }

  /** On any tables exactly one verdict is warranted, and it is the one reached. */
  lemma JudgeIsWarranted(t: Tables, req: AuthRequest, reading: Instant, v: Verdict)
    requires Constraints(t)
    ensures Warranted(t, req, reading, v) <==> v == Judge(t, req, reading)
  {
    PresentsOnly(req, "");
    if EarlyVerdict(req) == None {
      RowPresented(t, req);
      match KeyByValue(t, Presented(req))
      case None =>
      case Some(k) =>
        InUseMeans(t, k);
        WarrantedByRow(t, req, reading, v, k);
    }
  }

  /** Some row has the key that the request presents, in the password or else in the path; it is
      active, not past its expiry time, and without an active stream. */
  ghost predicate SomeKeyAdmits(t: Tables, req: AuthRequest, reading: Instant) {
    exists k :: && k in t.keys
                && Presents(req, t.keys[k].keyValue) && t.keys[k].keyValue != ""
                && t.keys[k].status == KeyActive
                && (t.keys[k].expiresAt == None || reading <= t.keys[k].expiresAt.value)
                && forall sid :: sid in t.streams ==> !StreamsOn(t.streams[sid], k)
  }

  /** A caller is let in exactly when it does not want to publish, or some key admits it; the key is
      then the one the verdict names. */
  lemma AllowedIffValid(t: Tables, req: AuthRequest, reading: Instant)
    requires Constraints(t)
    ensures Judge(t, req, reading).Allowed() <==> req.action != "publish" || SomeKeyAdmits(t, req, reading)
    ensures Judge(t, req, reading).Authenticated? ==>
              && Judge(t, req, reading).keyId in t.keys
              && t.keys[Judge(t, req, reading).keyId].keyValue == Presented(req)
              && t.keys[Judge(t, req, reading).keyId].IsValid(reading)
  {
    PresentsOnly(req, "");
    RowPresented(t, req);
    if k :| k in t.keys && KeyByValue(t, Presented(req)) == Some(k) {
      InUseMeans(t, k);
    }
  }

  /** What a verdict, in a transaction that began at `txTime`, does to the tables: it records the last
      use of the key let in, or that the key presented has expired, and changes nothing else. */
  ghost predicate Recorded(t: Tables, u: Tables, req: AuthRequest, v: Verdict, txTime: Instant) {
    && u.broadcasters == t.broadcasters && u.streams == t.streams && u.keys.Keys == t.keys.Keys
    && forall k :: k in t.keys ==>
         u.keys[k] == if v == Authenticated(k) then t.keys[k].(lastUsedAt := Some(txTime))
                      else if v == ExpiredKey && Presents(req, t.keys[k].keyValue) then t.keys[k].(status := KeyExpired)
                      else t.keys[k]
  }

  lemma RecordedOnce(t: Tables, u: Tables, w: Tables, req: AuthRequest, v: Verdict, txTime: Instant)
    requires Recorded(t, u, req, v, txTime) && Recorded(t, w, req, v, txTime)
    ensures u == w
  {
    assert u.keys == w.keys;
  }

  lemma SettleRecords(t: Tables, req: AuthRequest, reading: Instant, txTime: Instant)
    requires Constraints(t)
    ensures var v := Judge(t, req, reading);
            Recorded(t, Settle(Materialising, t, req, v, txTime), req, v, txTime)
  {
    var v := Judge(t, req, reading);
    if v == ExpiredKey {
      RowPresented(t, req);
      MarkRecords(t, req, KeyByValue(t, Presented(req)).value, txTime);
    }
  }

  lemma MarkRecords(t: Tables, req: AuthRequest, k: Uuid, txTime: Instant)
    requires k in t.keys && forall k' :: k' in t.keys ==> (Presents(req, t.keys[k'].keyValue) <==> k' == k)
    ensures Recorded(t, Run(t, MarkExpired(k)), req, ExpiredKey, txTime)
  {
  }

  /** One authentication, by what it means: the verdict is the one warranted, and exactly what that
      verdict records is recorded. */
  lemma JudgeAndSettle(t: Tables, req: AuthRequest, reading: Instant, txTime: Instant, v: Verdict, u: Tables)
    requires Constraints(t)
    ensures Warranted(t, req, reading, v) && Recorded(t, u, req, v, txTime)
            <==> v == Judge(t, req, reading) && u == Settle(Materialising, t, req, v, txTime)
  {
    JudgeIsWarranted(t, req, reading, v);
    SettleRecords(t, req, reading, txTime);
    if v == Judge(t, req, reading) && Recorded(t, u, req, v, txTime) {
      RecordedOnce(t, u, Settle(Materialising, t, req, v, txTime), req, v, txTime);
    }
  }

  /** Being let in reserves nothing: until a ready webhook opens a stream, the same key is let in
      again at any time up to its expiry, although the research notes mean the lock to admit one. */
  lemma AdmissionReservesNothing(t: Tables, req: AuthRequest, reading: Instant, txTime: Instant, later: Instant)
    requires Constraints(t) && Judge(t, req, reading).Authenticated?
    ensures var v := Judge(t, req, reading);
            var u := Settle(Materialising, t, req, v, txTime);
            Judge(u, req, later) == v <==> !t.keys[v.keyId].PastExpiry(later)
  {
    AllowedIffValid(t, req, reading);
    var k := Judge(t, req, reading).keyId;
    var u := Run(t, TouchLastUsed(k, txTime));
    RunKeepsConstraints(t, TouchLastUsed(k, txTime));
    KeyByValueIs(u, k);
    assert InUse(u, k) <==> InUse(t, k) by {
      assert u.streams == t.streams;
      assert forall sid :: LiveFor(u, sid, k) <==> LiveFor(t, sid, k);
    }
  }
}
