/** The request handlers, each as the source runs it: statement after statement on the database,
    with nothing in between.  Parameters stand for the clocks, fresh identifiers and randomness. */
module Handlers {
  import opened Domain
  import opened Schema
  import opened Statements
  import opened KeyText
  import opened Verdicts
  import opened Database
  import opened MediaMtx
  import P = Protocol
  import A = Alone
  import B = Base64Url

  /** The body of Authenticate's transaction, once the request's key is extracted. */
  method DecideInTransaction(db: Db, keyValue: string, ghost req: AuthRequest, now: P.Clock) returns (result: Verdict)
    requires db.Valid() && EarlyVerdict(req) == None && keyValue == Presented(req)
    modifies db
    ensures db.Valid()
    ensures result == Judge(old(db.Snapshot()), req, now.app)
    ensures db.Snapshot() == Settle(Materialising, old(db.Snapshot()), req, result, now.db)
  {
    var found := db.GetByKeyValue(keyValue);
    if found == None {
      return UnknownKey;
    }
    var k := found.value;
    var key := db.keys[k];
    if key.status == KeyRevoked {
      return RevokedKey;
    }
    if key.status == KeyExpired {
      assert db.keys[k := key.(status := KeyExpired)] == db.keys;
      return ExpiredKey;
    }
    if key.PastExpiry(now.app) {
      db.MarkExpired(k);
      return ExpiredKey;
    }
    var active := db.GetActiveByStreamKeyID(k);
    if active.Some? {
      return KeyInUse;
    }
    db.TouchLastUsed(k, now.db);
    result := Authenticated(k);
  }

  /** AuthService.Authenticate, on a database nobody else is using. */
  method Authenticate(db: Db, req: AuthRequest, now: P.Clock) returns (result: Verdict)
    requires db.Valid()
    modifies db
    ensures db.Valid()
    ensures result == Judge(old(db.Snapshot()), req, now.app)
    ensures db.Snapshot() == Settle(Materialising, old(db.Snapshot()), req, result, now.db)
    ensures result.Allowed() <==> req.action != "publish" || SomeKeyAdmits(old(db.Snapshot()), req, now.app)
    ensures Warranted(old(db.Snapshot()), req, now.app, result)
    ensures Recorded(old(db.Snapshot()), db.Snapshot(), req, result, now.db)
    ensures req.action != "publish" ==> db.Snapshot() == old(db.Snapshot())
  {
    AllowedIffValid(db.Snapshot(), req, now.app);
    JudgeIsWarranted(db.Snapshot(), req, now.app, Judge(db.Snapshot(), req, now.app));
    SettleRecords(db.Snapshot(), req, now.app, now.db);
    if req.action != "publish" {
      return NonPublish;
    }
    var keyValue := req.password;
    if keyValue == "" {
      keyValue := req.path;
      if |keyValue| > 0 && keyValue[0] == '/' {
        keyValue := keyValue[1..];
      }
    }
    if keyValue == "" {
      return MissingKey;
    }
    result := DecideInTransaction(db, keyValue, req, now);
  }

  /** StreamKeyService.Revoke.  The kicks go to the path of the stream found active, before it is
      ended; whether they succeed makes no difference. */
  method Revoke(db: Db, mediaMtx: MediaMtxClient, id: Uuid, now: P.Clock,
                rtmp: Listing, rtsp: Listing, answers: Kick -> bool)
    returns (reply: P.Reply)
    requires db.Valid()
    modifies db, mediaMtx
    ensures db.Valid()
    ensures reply == old(A.RevokeReply(db.Snapshot(), id))
    ensures db.Snapshot() == A.Revoked(old(db.Snapshot()), id, now)
    ensures mediaMtx.requests == old(mediaMtx.requests) +
              if reply == P.Done && old(InUse(db.Snapshot(), id))
              then KicksFor(old(db.keys)[id].keyValue, rtmp, rtsp) else []
    ensures old(mediaMtx.requests) <= mediaMtx.requests
    ensures reply == P.Done && old(InUse(db.Snapshot(), id)) ==>
              KicksOut(mediaMtx.requests[|old(mediaMtx.requests)|..], old(db.keys)[id].keyValue, rtmp, rtsp)
  {
    if id !in db.keys {
      return P.NotFound;
    }
    if db.keys[id].status != KeyActive {
      return P.InvalidStatus;
    }
    var active := db.GetActiveByStreamKeyID(id);
    if active.Some? {
      var sid := active.value;
      mediaMtx.KickPath(db.streams[sid].path, rtmp, rtsp, answers);
      var _ := db.EndStream(sid, now.db);
    }
    var r := db.UpdateStatus(id, KeyRevoked, Some(now.app));
    reply := P.Done;
  }

  /** WebhookHandler.handleReady.  Whether or not a stream is created, the answer is 204. */
  method HandleReady(db: Db, path: string, sourceType: string, sourceId: string, newId: Uuid, now: P.Clock)
    returns (created: bool)
    requires db.Valid() && newId !in db.streams
    modifies db`streams
    ensures db.Valid()
    ensures created == old(A.Opens(db.Snapshot(), path, sourceType, sourceId))
    ensures db.Snapshot() == A.Opened(old(db.Snapshot()), path, sourceType, sourceId, now, newId)
  {
    if path == "" {
      return false;
    }
    var found := db.GetByKeyValue(path);
    if found == None {
      return false;
    }
    var stream := Stream(found.value, path, StreamActive, now.app, None, None, None);
    if sourceType != "" {
      stream := stream.(sourceType := Some(sourceType));
    }
    if sourceId != "" {
      stream := stream.(sourceId := Some(sourceId));
    }
    assert stream == Stream(found.value, path, StreamActive, now.app, None, P.NonEmpty(sourceType), P.NonEmpty(sourceId));
    assert |path| == |db.keys[found.value].keyValue|;
    var r := db.InsertStream(newId, stream);
    created := r == Ok;
  }

  /** WebhookHandler.handleNotReady: ends the one active stream at the path, if there is one. */
  method HandleNotReady(db: Db, path: string, now: P.Clock) returns (reply: P.Reply)
    requires db.Valid()
    modifies db`streams
    ensures db.Valid()
    ensures path == "" ==> reply == P.BadRequest && db.streams == old(db.streams)
    ensures path != "" ==>
              match old(StreamAtPath(db.Snapshot(), path))
              case None => reply == P.NotFound && db.streams == old(db.streams)
              case Some(sid) =>
                reply == P.Done && db.streams == old(db.streams)[sid := old(db.streams)[sid].EndedAt(now.db)]
  {
    if path == "" {
      return P.BadRequest;
    }
    var r := db.EndStreamByPath(path, now.db);
    reply := if r == Ok then P.Done else P.NotFound;
  }

  /** StreamKeyService.Create: a new active key, or nothing. */
  method CreateKey(db: Db, broadcasterId: Uuid, expiresAt: Option<Instant>,
                   random: Option<seq<B.byte>>, newId: Uuid, now: P.Clock)
    returns (created: Option<StreamKey>)
    requires db.Valid() && newId !in db.keys
    requires random.Some? ==> |random.value| == ENTROPY
    modifies db`keys
    ensures db.Valid()
    ensures created.Some? <==>
              && random.Some?
              && broadcasterId in db.broadcasters
              && old(KeyByValue(db.Snapshot(), Generated(random.value))) == None
    ensures db.keys == if created.Some? then old(db.keys)[newId := created.value] else old(db.keys)
    ensures created.Some? ==>
              && created.value == StreamKey(Generated(random.value), broadcasterId, KeyActive, now.app, expiresAt, None, None)
              && MatchesPattern(created.value.keyValue)
              && KeyByValue(db.Snapshot(), created.value.keyValue) == Some(newId)
  {
    var text := GenerateStreamKey(random);
    if text == None {
      return None;
    }
    var key := StreamKey(text.value, broadcasterId, KeyActive, now.app, expiresAt, None, None);
    var r := db.InsertKey(newId, key);
    if r != Ok {
      return None;
    }
    KeyByValueIs(db.Snapshot(), newId);
    created := Some(key);
  }
}
